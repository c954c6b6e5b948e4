/** Which streams are answered, and with what. */
module StreamAnswer {
  import opened Basics
  import opened Stream

  // ---- the values the lines carry ----

  function Values(lines: seq<string>): seq<string> {
    if lines == [] then []
    else (if "data:" <= lines[0] then [Strip(lines[0][5..])] else []) + Values(lines[1..])
  }

  function FoldValues(rd: Reader, acc: Acc, vs: seq<string>): Stage
    decreases |vs|
  {
    if vs == [] then Go(acc) else
    match TakeValue(rd, acc, vs[0])
    case Halt(f) => Halt(f)
    case Go(next) => FoldValues(rd, next, vs[1..])
  }

  lemma {:induction false} LinesAreValues(rd: Reader, acc: Acc, lines: seq<string>)
    ensures FoldLines(rd, acc, lines) == FoldValues(rd, acc, Values(lines))
    decreases |lines|
  {
    hide TakeValue, Strip;
    if lines != [] {
      var vs := Values(lines);
      if "data:" <= lines[0] {
        assert vs[0] == Strip(lines[0][5..]) && vs[1..] == Values(lines[1..]);
        var s := TakeValue(rd, acc, vs[0]);
        if s.Go? { LinesAreValues(rd, s.acc, lines[1..]); }
      } else {
        assert vs == Values(lines[1..]);
        LinesAreValues(rd, acc, lines[1..]);
      }
    }
  }

  // ---- what makes a stream good ----

  predicate Speaks(e: Event) {
    e.choices.Some? && |e.choices.value| == 1 && e.choices.value[0].Choice? && e.choices.value[0].content.Text?
    && e.choices.value[0].content.text != ""
  }

  predicate Stops(e: Event) {
    e.choices.Some? && |e.choices.value| == 1 && e.choices.value[0].Choice? && e.choices.value[0].finish == Some("stop")
  }

  /** No provider error, the right model, at most one completion, text content, no finish but "stop". */
  predicate Sound(rd: Reader, e: Event) {
    && e.error.None? && !WrongModel(rd, e) && e.choices.Some? && |e.choices.value| <= 1
    && forall c :: c in e.choices.value ==> SoundChoice(c)
  }

  predicate SoundChoice(c: Choice) {
    c.Choice? && !c.content.NotText? && (c.finish.None? || c.finish == Some("stop"))
  }

  function Delta(e: Event): seq<string> { if Speaks(e) then [e.choices.value[0].content.text] else [] }

  function Deltas(es: seq<Event>): seq<string> { if es == [] then [] else Delta(es[0]) + Deltas(es[1..]) }

  function LastUsage(es: seq<Event>, before: Option<string>): Option<string> {
    if es == [] then before else LastUsage(es[1..], if es[0].usage.Some? then es[0].usage else before)
  }

  function FirstId(es: seq<Event>, before: Option<string>): Option<string> {
    if es == [] then before else FirstId(es[1..], if before.None? then es[0].requestId else before)
  }

  /** No content after a stop. */
  ghost predicate Orderly(es: seq<Event>) {
    forall i, j :: 0 <= i < j < |es| && Stops(es[i]) ==> !Speaks(es[j])
  }

  ghost predicate AnyStops(es: seq<Event>) { exists e :: e in es && Stops(e) }

  ghost predicate AnySpeaks(es: seq<Event>) { exists e :: e in es && Speaks(e) }

  // ---- one event ----

  lemma EventTaken(rd: Reader, acc: Acc, e: Event)
    ensures TakeEvent(rd, acc, e).Go? <==> Sound(rd, e) && !(acc.finished && Speaks(e))
    ensures TakeEvent(rd, acc, e).Go? ==>
              TakeEvent(rd, acc, e).acc == Acc(acc.text + Delta(e), if e.usage.Some? then e.usage else acc.usage,
                                               if acc.requestId.None? then e.requestId else acc.requestId,
                                               acc.finished || Stops(e), acc.done)
  {
    assert acc.text + [] == acc.text;
    if e.choices.Some? && |e.choices.value| == 1 {
      var cs, c := e.choices.value, e.choices.value[0];
      assert cs == [c] && c in cs;
      assert (forall x :: x in cs ==> SoundChoice(x)) <==> SoundChoice(c);
    }
  }

  function FoldEvents(rd: Reader, acc: Acc, es: seq<Event>): Stage
    decreases |es|
  {
    if es == [] then Go(acc) else
    match TakeEvent(rd, acc, es[0])
    case Halt(f) => Halt(f)
    case Go(next) => FoldEvents(rd, next, es[1..])
  }

  lemma {:induction false} EventsTaken(rd: Reader, acc: Acc, es: seq<Event>)
    ensures FoldEvents(rd, acc, es).Go? <==>
              (forall e :: e in es ==> Sound(rd, e)) && Orderly(es) && !(acc.finished && AnySpeaks(es))
    ensures FoldEvents(rd, acc, es).Go? ==>
              FoldEvents(rd, acc, es).acc == Acc(acc.text + Deltas(es), LastUsage(es, acc.usage), FirstId(es, acc.requestId),
                                                 acc.finished || AnyStops(es), acc.done)
    decreases |es|
  {
    hide TakeEvent, Sound, Speaks, Stops, Delta;
    if es == [] {
      assert acc.text + [] == acc.text;
    } else {
      var e, rest := es[0], es[1..];
      assert es == [e] + rest;
      EventTaken(rd, acc, e);
      var s := TakeEvent(rd, acc, e);
      OrderlyHead(es);
      if s.Go? {
        EventsTaken(rd, s.acc, rest);
        assert (acc.text + Delta(e)) + Deltas(rest) == acc.text + (Delta(e) + Deltas(rest));
      }
    }
  }

  lemma OrderlyHead(es: seq<Event>)
    requires es != []
    ensures Orderly(es) <==> Orderly(es[1..]) && !(Stops(es[0]) && AnySpeaks(es[1..]))
    ensures AnySpeaks(es) <==> Speaks(es[0]) || AnySpeaks(es[1..])
    ensures AnyStops(es) <==> Stops(es[0]) || AnyStops(es[1..])
  {
    hide Stops, Speaks;
    var rest := es[1..];
    assert es == [es[0]] + rest;
    if Orderly(es) {
      forall i, j | 0 <= i < j < |rest| && Stops(rest[i])
        ensures !Speaks(rest[j]) { assert rest[i] == es[i + 1] && rest[j] == es[j + 1]; }
      forall j | 0 <= j < |rest| && Stops(es[0]) ensures !Speaks(rest[j]) { assert rest[j] == es[j + 1]; }
    }
    if Orderly(rest) && !(Stops(es[0]) && AnySpeaks(rest)) {
      forall i, j | 0 <= i < j < |es| && Stops(es[i]) ensures !Speaks(es[j]) {
        assert es[j] == rest[j - 1] && es[j] in rest;
        if i > 0 { assert es[i] == rest[i - 1]; }
      }
    }
  }

  // ---- the terminator ----

  /** The values before the first [DONE]. */
  function BeforeDone(vs: seq<string>): seq<string> {
    if vs == [] || vs[0] == "[DONE]" then [] else [vs[0]] + BeforeDone(vs[1..])
  }

  function AfterDone(vs: seq<string>): seq<string> {
    if vs == [] || vs[0] == "[DONE]" then vs else AfterDone(vs[1..])
  }

  lemma {:induction false} DoneSplits(vs: seq<string>)
    ensures vs == BeforeDone(vs) + AfterDone(vs)
    ensures "[DONE]" !in BeforeDone(vs) && (AfterDone(vs) != [] ==> AfterDone(vs)[0] == "[DONE]")
  {
    if vs != [] && vs[0] != "[DONE]" { DoneSplits(vs[1..]); }
  }

  lemma {:induction false} DoneOnly(rd: Reader, acc: Acc, vs: seq<string>)
    requires acc.done
    ensures FoldValues(rd, acc, vs).Go? <==> forall v :: v in vs ==> v == "[DONE]"
    ensures FoldValues(rd, acc, vs).Go? ==> FoldValues(rd, acc, vs).acc == acc
    decreases |vs|
  {
    if vs != [] {
      assert vs == [vs[0]] + vs[1..];
      assert forall v :: v in vs <==> v == vs[0] || v in vs[1..];
      assert vs[0] in vs;
      if vs[0] == "[DONE]" {
        assert acc.(done := true) == acc;
        DoneOnly(rd, acc, vs[1..]);
      }
    }
  }

  function Events(rd: Reader, vs: seq<string>): Option<seq<Event>> {
    if vs == [] then Some([]) else
    match rd.parse(vs[0])
    case None => None
    case Some(e) =>
      match Events(rd, vs[1..])
      case None => None
      case Some(es) => Some([e] + es)
  }

  /** Values that are not [DONE], taken in turn, are their events taken in turn. */
  lemma {:induction false} ValuesAreEvents(rd: Reader, acc: Acc, a: seq<string>, b: seq<string>)
    requires !acc.done && "[DONE]" !in a
    ensures FoldValues(rd, acc, a + b).Go? ==> Events(rd, a).Some?
    ensures Events(rd, a).Some? ==>
              match FoldEvents(rd, acc, Events(rd, a).value)
              case Halt(f) => FoldValues(rd, acc, a + b) == Halt(f)
              case Go(next) => FoldValues(rd, acc, a + b) == FoldValues(rd, next, b) && !next.done
    decreases |a|
  {
    hide TakeEvent;
    if a == [] {
      assert a + b == b;
    } else {
      assert a == [a[0]] + a[1..] && (a + b)[1..] == a[1..] + b && (a + b)[0] == a[0];
      if rd.parse(a[0]).Some? {
        var e := rd.parse(a[0]).value;
        EventTaken(rd, acc, e);
        var s := TakeEvent(rd, acc, e);
        if Events(rd, a[1..]).Some? {
          assert ([e] + Events(rd, a[1..]).value)[1..] == Events(rd, a[1..]).value;
        }
        if s.Go? { ValuesAreEvents(rd, s.acc, a[1..], b); } else { UnparsedTail(rd, a); }
      }
    }
  }

  lemma UnparsedTail(rd: Reader, a: seq<string>)
    requires a != []
    ensures Events(rd, a).Some? ==> Events(rd, a).value != [] && rd.parse(a[0]) == Some(Events(rd, a).value[0])
  {
  }

  // ---- the answer ----

  /** A stream worth answering: events, then one [DONE] or more and nothing else; every event sound;
      content before the stop only; some content, some stop. */
  ghost predicate Good(rd: Reader, vs: seq<string>) {
    && AfterDone(vs) != [] && (forall v :: v in AfterDone(vs) ==> v == "[DONE]")
    && Events(rd, BeforeDone(vs)).Some?
    && var es := Events(rd, BeforeDone(vs)).value;
       (forall e :: e in es ==> Sound(rd, e)) && Orderly(es) && AnyStops(es) && AnySpeaks(es)
  }

  lemma {:induction false} DeltasSpeak(es: seq<Event>)
    ensures Deltas(es) != [] <==> AnySpeaks(es)
  {
    if es != [] {
      DeltasSpeak(es[1..]);
      OrderlyHead(es);
    }
  }

  /** A text is answered exactly when its values are good, and then with the deltas in order, the last
      usage and the first request id. */
  lemma AnsweredIffGood(rd: Reader, text: string)
    ensures Assemble(rd, text).Answer? <==> Good(rd, Values(Lines(text)))
    ensures Assemble(rd, text).Answer? ==>
              var es := Events(rd, BeforeDone(Values(Lines(text)))).value;
              Assemble(rd, text) == Answer(Concat(Deltas(es)), LastUsage(es, None), FirstId(es, None))
  {
    hide Lines, Values, Events, FoldEvents, Deltas, LastUsage, FirstId, Sound, Orderly, AnySpeaks, AnyStops;
    var vs := Values(Lines(text));
    LinesAreValues(rd, FRESH, Lines(text));
    hide FoldLines;
    DoneSplits(vs);
    var a, b := BeforeDone(vs), AfterDone(vs);
    ValuesAreEvents(rd, FRESH, a, b);
    hide BeforeDone, AfterDone;
    if Events(rd, a).Some? {
      var es := Events(rd, a).value;
      EventsTaken(rd, FRESH, es);
      DeltasSpeak(es);
      assert [] + Deltas(es) == Deltas(es);
      var s := FoldEvents(rd, FRESH, es);
      if s.Go? { TerminatorTaken(rd, s.acc, b); }
    }
  }

  /** After the events: nothing, or [DONE] and only [DONE]. */
  lemma TerminatorTaken(rd: Reader, acc: Acc, b: seq<string>)
    requires !acc.done && (b != [] ==> b[0] == "[DONE]")
    ensures b == [] ==> FoldValues(rd, acc, b) == Go(acc)
    ensures b != [] ==> (FoldValues(rd, acc, b).Go? <==> forall v :: v in b ==> v == "[DONE]")
    ensures b != [] && FoldValues(rd, acc, b).Go? ==> FoldValues(rd, acc, b).acc == acc.(done := true)
  {
    if b != [] {
      assert b == [b[0]] + b[1..];
      assert forall v :: v in b <==> v == b[0] || v in b[1..];
      DoneOnly(rd, acc.(done := true), b[1..]);
    }
  }

  // ---- an answered text with two stops and two terminators ----

  lemma {:induction false} DropReturnsPlain(s: string)
    requires s == "" || s[|s| - 1] != '\r'
    ensures DropReturns(s) == s
  {
  }

  lemma LinesCons(line: string, rest: string)
    requires (forall i :: 0 <= i < |line| ==> line[i] != '\n') && line != "" && line[|line| - 1] != '\r'
    ensures Lines(line + "\n" + rest) == [line] + Lines(rest)
  {
    var s := line + "\n" + rest;
    var n := Newline(s);
    assert s[|line|] == '\n';
    forall i | 0 <= i < |line| ensures s[i] != '\n' { assert s[i] == line[i]; }
    assert n == |line|;
    assert s[..n] == line && s[n + 1..] == rest;
    DropReturnsPlain(line);
  }

  lemma LinesOne(line: string)
    requires (forall i :: 0 <= i < |line| ==> line[i] != '\n') && line != "" && line[|line| - 1] != '\r'
    ensures Lines(line) == [line]
  {
    DropReturnsPlain(line);
  }

  lemma StripPlain(v: string)
    requires v != "" && !IsSpace(v[0]) && !IsSpace(v[|v| - 1])
    ensures Strip(v) == v
  {
  }

  lemma ValuesCons(v: string, lines: seq<string>)
    requires v != "" && !IsSpace(v[0]) && !IsSpace(v[|v| - 1])
    ensures Values(["data:" + v] + lines) == [v] + Values(lines)
  {
    hide Strip;
    StripPlain(v);
    var ls := ["data:" + v] + lines;
    assert ls[0][5..] == v && ls[1..] == lines;
    assert "data:" <= ls[0];
  }

  /** A server that says "hi" to "a", says nothing else, and stops every time. */
  function Greeter(v: string): Option<Event> {
    Some(Event(None, Absent, None, None, Some([Choice(if v == "a" then Text("hi") else Nothing, Some("stop"))])))
  }

  const GREETER := Reader("m", false, 100, v => Greeter(v))

  const TWICE := "data:a\ndata:b\ndata:[DONE]\ndata:[DONE]"

  lemma TwiceLines()
    ensures Lines(TWICE) == ["data:" + "a", "data:" + "b", "data:" + "[DONE]", "data:" + "[DONE]"]
  {
    hide Lines;
    var a, b, c := "data:" + "a", "data:" + "b", "data:" + "[DONE]";
    var t3 := c + "\n" + c;
    var t2 := b + "\n" + t3;
    assert TWICE == a + "\n" + t2;
    LinesOne(c);
    LinesCons(c, c);
    LinesCons(b, t3);
    LinesCons(a, t2);
    assert [c] + [c] == [c, c] && [b] + [c, c] == [b, c, c] && [a] + [b, c, c] == [a, b, c, c];
  }

  lemma TwiceValues()
    ensures Values(Lines(TWICE)) == ["a", "b", "[DONE]", "[DONE]"]
  {
    hide Lines, Values, Strip;
    TwiceLines();
    var a, b, c := "data:" + "a", "data:" + "b", "data:" + "[DONE]";
    assert [c] + [] == [c] && [c] + [c] == [c, c] && [b] + [c, c] == [b, c, c] && [a] + [b, c, c] == [a, b, c, c];
    NoValues();
    ValuesCons("[DONE]", []);
    ValuesCons("[DONE]", [c]);
    ValuesCons("b", [c, c]);
    ValuesCons("a", [b, c, c]);
  }

  lemma NoValues()
    ensures Values([]) == []
  {
  }

  /** Two stops and two [DONE] are answered. */
  lemma TwiceIsAnswered()
    ensures Assemble(GREETER, TWICE) == Answer("hi", None, None)
  {
    hide Lines, Values;
    TwiceValues();
    LinesAreValues(GREETER, FRESH, Lines(TWICE));
    var vs := ["a", "b", "[DONE]", "[DONE]"];
    assert vs[1..] == ["b", "[DONE]", "[DONE]"] && vs[1..][1..] == ["[DONE]", "[DONE]"];
    assert vs[1..][1..][1..] == ["[DONE]"] && vs[1..][1..][1..][1..] == [];
    var s1 := Acc(["hi"], None, None, true, false);
    assert TakeValue(GREETER, FRESH, "a") == Go(s1);
    assert TakeValue(GREETER, s1, "b") == Go(s1);
    assert FoldValues(GREETER, FRESH, vs) == Go(s1.(done := true));
    assert Concat(["hi"]) == "hi" by { assert ["hi"][1..] == []; }
  }
}
