/** Wyoming event framing: a newline-terminated JSON header, then as many data
    and payload bytes as that header announces. JSON text itself is abstract. */
module Wyoming {
  import opened Basics

  const NEWLINE: byte := 10

  /** What one header line says. `Malformed` is a line that is not UTF-8, not
      JSON, or not a JSON object; an absent or null length reads as zero. */
  datatype Header<J> = Malformed | Header(kind: string, data: J, dataLength: int, payloadLength: int)

  datatype Event<J> = Event(kind: string, data: J, payload: Option<Bytes>)

  /** The JSON text functions, as parameters: `Head` decodes a header line,
      `Object` a data block, and `Line` prints a header without its newline. */
  datatype Json<!J> = Json(
    Head: Bytes -> Header<J>,
    Object: Bytes -> Option<J>,
    Line: (string, J, nat) -> Bytes)

  datatype Parsed<J> = Parsed(events: seq<Event<J>>, leftover: Bytes)

  // ----- Reading one frame -----

  function IndexOf(buf: Bytes): (k: nat)
    ensures k <= |buf|
    ensures k < |buf| ==> buf[k] == NEWLINE && NEWLINE in buf
    ensures NEWLINE !in buf[..k]
  {
    if buf == [] || buf[0] == NEWLINE then 0
    else
      assert forall k :: 0 < k <= |buf| ==> buf[..k] == [buf[0]] + buf[1..][..k - 1];
      1 + IndexOf(buf[1..])
  }

  lemma {:induction false} IndexIsFirst(line: Bytes, rest: Bytes)
    requires NEWLINE !in line
    ensures IndexOf(line + [NEWLINE] + rest) == |line|
  {
    if line != [] {
      assert (line + [NEWLINE] + rest)[1..] == line[1..] + [NEWLINE] + rest;
      IndexIsFirst(line[1..], rest);
    }
  }

  lemma {:induction false} IndexIsStable(a: Bytes, b: Bytes)
    requires IndexOf(a) < |a|
    ensures IndexOf(a + b) == IndexOf(a)
  {
    if a[0] != NEWLINE {
      assert (a + b)[1..] == a[1..] + b;
      IndexIsStable(a[1..], b);
    }
  }

  /** Byte slices clamp to the end of the buffer. */
  function Take(buf: Bytes, n: nat): Bytes { if n <= |buf| then buf[..n] else buf }
  function Drop(buf: Bytes, n: nat): (rest: Bytes)
    ensures |rest| <= |buf|
  {
    if n <= |buf| then buf[n..] else []
  }

  function EventOf<J>(c: Json<J>, h: Header<J>, body: Bytes): Event<J>
    requires h.Header?
  {
    var data :=
      if h.dataLength <= 0 then h.data
      else match c.Object(Take(body, h.dataLength)) { case Some(d) => d case None => h.data };
    var payload :=
      if h.payloadLength <= 0 then None
      else Some(Take(Drop(body, Max(h.dataLength, 0)), h.payloadLength));
    Event(h.kind, data, payload)
  }

  datatype Step<J> = Wait | Skip(rest: Bytes) | Emit(event: Event<J>, rest: Bytes)

  /** How many bytes after the header an event takes. */
  function Trailing<J>(h: Header<J>): nat
    requires h.Header?
  {
    Max(h.dataLength, 0) + Max(h.payloadLength, 0)
  }

  /** What a header and the bytes after it amount to. */
  function Frame<J>(c: Json<J>, h: Header<J>, body: Bytes): (s: Step<J>)
    ensures !s.Wait? ==> |s.rest| <= |body|
  {
    if h.Malformed? then Skip(body)
    else if 0 < h.dataLength + h.payloadLength && |body| < h.dataLength + h.payloadLength then Wait
    else Emit(EventOf(c, h, body), Drop(body, Trailing(h)))
  }

  function HeadOf<J>(c: Json<J>, buf: Bytes): Header<J> {
    c.Head(buf[..IndexOf(buf)])
  }

  function Next<J>(c: Json<J>, buf: Bytes): (s: Step<J>)
    ensures !s.Wait? ==> |s.rest| < |buf|
  {
    var nl := IndexOf(buf);
    if nl == |buf| then Wait else Frame(c, HeadOf(c, buf), buf[nl + 1..])
  }

  /** The specification of the parser: every complete frame, and what is left. */
  function Parse<J>(c: Json<J>, buf: Bytes): Parsed<J>
    decreases |buf|
  {
    match Next(c, buf)
    case Wait => Parsed([], buf)
    case Skip(rest) => Parse(c, rest)
    case Emit(e, rest) => var p := Parse(c, rest); Parsed([e] + p.events, p.leftover)
  }

  function Onto<J>(before: seq<Event<J>>, p: Parsed<J>): Parsed<J> {
    Parsed(before + p.events, p.leftover)
  }

  /** What parsing comes to once the next frame is known. */
  function Ahead<J>(c: Json<J>, before: seq<Event<J>>, buf: Bytes, step: Step<J>): Parsed<J> {
    match step
    case Wait => Parsed(before, buf)
    case Skip(rest) => Onto(before, Parse(c, rest))
    case Emit(e, rest) => Onto(before + [e], Parse(c, rest))
  }

  lemma Unfold<J>(c: Json<J>, before: seq<Event<J>>, buf: Bytes)
    ensures Onto(before, Parse(c, buf)) == Ahead(c, before, buf, Next(c, buf))
  {
    hide Next;
  }

  lemma OntoNothing<J>(p: Parsed<J>)
    ensures Onto([], p) == p
  {
  }

  lemma OntoTwice<J>(a: seq<Event<J>>, b: seq<Event<J>>, p: Parsed<J>)
    ensures Onto(a, Onto(b, p)) == Onto(a + b, p)
  {
  }

  lemma DropTwice(buf: Bytes, m: nat, n: nat)
    ensures Drop(Drop(buf, m), n) == Drop(buf, m + n)
  {
  }

  /** The data and payload after a complete header; the offset moves past both. */
  method TakeBody<J>(c: Json<J>, buf: Bytes, start: nat, header: Header<J>) returns (event: Event<J>, offset: nat)
    requires header.Header?
    ensures event == EventOf(c, header, Drop(buf, start))
    ensures offset == start + Trailing(header)
  {
    offset := start;
    var data, payload := header.data, None;
    if 0 < header.dataLength {
      var decoded := c.Object(Take(Drop(buf, offset), header.dataLength));
      if decoded.Some? {
        data := decoded.value;
      }
      offset := offset + header.dataLength;
    }
    if 0 < header.payloadLength {
      payload := Some(Take(Drop(buf, offset), header.payloadLength));
      offset := offset + header.payloadLength;
    }
    DropTwice(buf, start, Max(header.dataLength, 0));
    event := Event(header.kind, data, payload);
  }

  /** The streaming parser itself: one pass over the buffer with a moving offset. */
  method ParseEvents<J>(c: Json<J>, buf: Bytes) returns (events: seq<Event<J>>, leftover: Bytes)
    ensures Parsed(events, leftover) == Parse(c, buf)
  {
    hide IndexOf, EventOf, Onto, Parse, Trailing;
    assert Onto([], Parse(c, buf)) == Parse(c, buf) by { OntoNothing(Parse(c, buf)); }
    var n, offset: nat := |buf|, 0;
    events := [];
    ghost var rest := buf;
    while offset < n
      invariant rest == Drop(buf, offset)
      invariant Parse(c, buf) == Onto(events, Parse(c, rest))
      decreases n - offset
    {
      Unfold(c, events, rest);
      var line := IndexOf(buf[offset..]);
      if line == n - offset {
        break;
      }
      var lineStart := offset;
      var header := c.Head(buf[offset..][..line]);
      offset := offset + line + 1;
      ghost var body := rest[line + 1..];
      assert buf[offset..] == body;
      if header.Malformed? {
        rest := body;
        continue;
      }
      var total := header.dataLength + header.payloadLength;
      if 0 < total && n < offset + total {
        offset := lineStart;
        break;
      }
      var event;
      event, offset := TakeBody(c, buf, offset, header);
      DropTwice(buf, lineStart + line + 1, Trailing(header));
      events := events + [event];
      rest := Drop(body, Trailing(header));
    }
    leftover := Drop(buf, offset);
    Unfold(c, events, rest);
  }

  // ----- What the parser makes of a stream, line by line -----

  lemma ParsesAhead<J>(c: Json<J>, buf: Bytes)
    ensures Parse(c, buf) == Ahead(c, [], buf, Next(c, buf))
  {
    hide Parse, Next, Onto;
    Unfold(c, [], buf);
    OntoNothing(Parse(c, buf));
  }

  /** A line that is no header is skipped, and parsing goes on with the next one. */
  lemma BadLineIsSkipped<J(!new)>(c: Json<J>, line: Bytes, rest: Bytes)
    requires NEWLINE !in line && c.Head(line).Malformed?
    ensures Parse(c, line + [NEWLINE] + rest) == Parse(c, rest)
  {
    hide Parse, HeadOf, Next, Onto;
    LineThenBody(c, line, rest);
    ParsesAhead(c, line + [NEWLINE] + rest);
    OntoNothing(Parse(c, rest));
  }

  lemma BodyParts(d: Bytes, p: Bytes, rest: Bytes)
    ensures Take(d + p + rest, |d|) == d
    ensures Take(Drop(d + p + rest, |d|), |p|) == p && Drop(d + p + rest, |d| + |p|) == rest
  {
    assert (d + p + rest)[..|d|] == d;
    assert (d + p + rest)[|d|..] == p + rest;
    assert (p + rest)[..|p|] == p;
    assert (d + p + rest)[|d| + |p|..] == rest;
  }

  lemma NoBytes(buf: Bytes)
    ensures Drop(buf, 0) == buf
  {}

  /** A header, the data block and the payload of the lengths it announces are one event: its data
      is the block's if that is JSON and the header's own if it is not or there is none, its
      payload is the payload if there is one; and parsing goes on after it. */
  lemma FrameIsOneEvent<J(!new)>(c: Json<J>, line: Bytes, d: Bytes, p: Bytes, rest: Bytes, kind: string, data: J)
    requires NEWLINE !in line && c.Head(line) == Header(kind, data, |d|, |p|)
    ensures var event := Event(kind, if d == [] || c.Object(d).None? then data else c.Object(d).value,
                               if p == [] then None else Some(p));
      Parse(c, line + [NEWLINE] + (d + p + rest)) == Onto([event], Parse(c, rest))
  {
    hide Parse, HeadOf, Next, Onto, Take, Drop;
    LineThenBody(c, line, d + p + rest);
    BodyParts(d, p, rest);
    NoBytes(d + p + rest);
    ParsesAhead(c, line + [NEWLINE] + (d + p + rest));
    var event := EventOf(c, c.Head(line), d + p + rest);
    assert [] + [event] == [event];
  }

  /** Until the last byte of a frame is there, the parser gives no event of it and keeps all of
      it. */
  lemma PartOfAFrameWaits<J(!new)>(c: Json<J>, line: Bytes, body: Bytes, n: nat)
    requires NEWLINE !in line && c.Head(line).Header?
    requires c.Head(line).dataLength + c.Head(line).payloadLength == |body|
    requires n < |line + [NEWLINE] + body|
    ensures var part := (line + [NEWLINE] + body)[..n]; Parse(c, part) == Parsed([], part)
  {
    hide Parse, HeadOf;
    var part := (line + [NEWLINE] + body)[..n];
    ParsesAhead(c, part);
    if n <= |line| {
      assert part == line[..n];
      NoneThere(part);
    } else {
      assert part == line + [NEWLINE] + body[..n - |line| - 1];
      LineThenBody(c, line, body[..n - |line| - 1]);
    }
  }

  lemma {:induction false} NoneThere(buf: Bytes)
    requires NEWLINE !in buf
    ensures IndexOf(buf) == |buf|
  {
    if buf != [] { NoneThere(buf[1..]); }
  }

  // ----- Feeding a stream in pieces -----

  /** One length positive and the other negative: the parser then waits for fewer
      bytes than it consumes. */
  predicate Mixed<J>(h: Header<J>) {
    h.Header? && ((0 < h.dataLength && h.payloadLength < 0) || (0 < h.payloadLength && h.dataLength < 0))
  }

  /** No frame that parsing `buf` delivers has a header with mixed lengths. */
  predicate Framed<J>(c: Json<J>, buf: Bytes)
    decreases |buf|
  {
    match Next(c, buf)
    case Wait => true
    case Skip(rest) => Framed(c, rest)
    case Emit(_, rest) => !Mixed(HeadOf(c, buf)) && Framed(c, rest)
  }

  /** Parsing `a`, carrying the leftover over and parsing on with `b`. */
  function Resume<J>(c: Json<J>, a: Bytes, b: Bytes): Parsed<J> {
    var p := Parse(c, a);
    Onto(p.events, Parse(c, p.leftover + b))
  }

  lemma BodyIsStable<J>(c: Json<J>, h: Header<J>, body: Bytes, more: Bytes)
    requires h.Header? && !Mixed(h)
    requires h.dataLength + h.payloadLength <= |body|
    ensures EventOf(c, h, body + more) == EventOf(c, h, body)
    ensures Drop(body + more, Trailing(h)) == Drop(body, Trailing(h)) + more
  {
    var d, p := Max(h.dataLength, 0), Max(h.payloadLength, 0);
    assert d + p <= |body|;
    assert Take(body + more, d) == Take(body, d);
    assert Drop(body + more, d) == Drop(body, d) + more;
    assert Take(Drop(body, d) + more, p) == Take(Drop(body, d), p);
  }

  /** A frame complete in `a` is the same frame in `a + b`. */
  lemma NextIsStable<J>(c: Json<J>, a: Bytes, b: Bytes)
    requires !Next(c, a).Wait?
    ensures HeadOf(c, a + b) == HeadOf(c, a)
    ensures Next(c, a + b).Emit? <==> Next(c, a).Emit?
    ensures Next(c, a).Skip? ==> Next(c, a + b) == Skip(Next(c, a).rest + b)
    ensures Next(c, a).Emit? && !Mixed(HeadOf(c, a)) ==>
              Next(c, a + b) == Emit(Next(c, a).event, Next(c, a).rest + b)
  {
    hide EventOf, IndexOf, Drop, Mixed;
    IndexIsStable(a, b);
    var nl := IndexOf(a);
    assert (a + b)[..nl] == a[..nl];
    assert (a + b)[nl + 1..] == a[nl + 1..] + b;
    if Next(c, a).Emit? && !Mixed(HeadOf(c, a)) {
      BodyIsStable(c, HeadOf(c, a), a[nl + 1..], b);
    }
  }

  lemma ResumeUnfolds<J>(c: Json<J>, a: Bytes, b: Bytes)
    ensures Next(c, a).Wait? ==> Resume(c, a, b) == Parse(c, a + b)
    ensures Next(c, a).Skip? ==> Resume(c, a, b) == Resume(c, Next(c, a).rest, b)
    ensures Next(c, a).Emit? ==> Resume(c, a, b) == Onto([Next(c, a).event], Resume(c, Next(c, a).rest, b))
  {
    hide Next;
    match Next(c, a)
    case Wait => OntoNothing(Parse(c, a + b));
    case Skip(rest) =>
    case Emit(e, rest) =>
      var p := Parse(c, rest);
      OntoTwice([e], p.events, Parse(c, p.leftover + b));
  }

  lemma {:induction false} SplitIsInvisible<J>(c: Json<J>, a: Bytes, b: Bytes)
    requires Framed(c, a + b)
    ensures Parse(c, a + b) == Resume(c, a, b)
    decreases |a|
  {
    hide Next, HeadOf, Mixed, Resume;
    ResumeUnfolds(c, a, b);
    if !Next(c, a).Wait? {
      NextIsStable(c, a, b);
      SplitIsInvisible(c, Next(c, a).rest, b);
    }
  }

  /** The reader's state after each piece of the stream has been parsed in turn. */
  function FeedAll<J>(c: Json<J>, leftover: Bytes, pieces: seq<Bytes>): Parsed<J>
    decreases |pieces|
  {
    if pieces == [] then Parse(c, leftover)
    else
      var p := Parse(c, leftover + pieces[0]);
      Onto(p.events, FeedAll(c, p.leftover, pieces[1..]))
  }

  function Join(pieces: seq<Bytes>): Bytes {
    if pieces == [] then [] else pieces[0] + Join(pieces[1..])
  }

  lemma {:induction false} SuffixIsFramed<J>(c: Json<J>, a: Bytes, b: Bytes)
    requires Framed(c, a + b)
    ensures Framed(c, Parse(c, a).leftover + b)
    decreases |a|
  {
    if !Next(c, a).Wait? {
      NextIsStable(c, a, b);
      SuffixIsFramed(c, Next(c, a).rest, b);
    }
  }

  /** However a stream is cut, its events and final leftover are those of one parse. */
  lemma {:induction false} AnySplitParsesAlike<J>(c: Json<J>, leftover: Bytes, pieces: seq<Bytes>)
    requires Framed(c, leftover + Join(pieces))
    ensures FeedAll(c, leftover, pieces) == Parse(c, leftover + Join(pieces))
    decreases |pieces|
  {
    if pieces == [] {
      assert leftover + [] == leftover;
    } else {
      var a, b := leftover + pieces[0], Join(pieces[1..]);
      assert leftover + Join(pieces) == a + b;
      SplitIsInvisible(c, a, b);
      SuffixIsFramed(c, a, b);
      AnySplitParsesAlike(c, Parse(c, a).leftover, pieces[1..]);
    }
  }

  ghost predicate SplitSafe<J(!new)>(c: Json<J>) {
    forall a, b :: Parse(c, a + b) == Resume(c, a, b)
  }

  lemma {:induction false} UnmixedIsFramed<J(!new)>(c: Json<J>, buf: Bytes)
    requires forall line: Bytes :: NEWLINE !in line ==> !Mixed(c.Head(line))
    ensures Framed(c, buf)
    decreases |buf|
  {
    if !Next(c, buf).Wait? {
      UnmixedIsFramed(c, Next(c, buf).rest);
    }
  }

  function Zeros(n: nat): (z: Bytes)
    ensures |z| == n && NEWLINE !in z
  {
    if n == 0 then [] else [0] + Zeros(n - 1)
  }

  lemma NoNewlineWaits<J>(c: Json<J>, buf: Bytes)
    requires NEWLINE !in buf
    ensures Parse(c, buf) == Parsed([], buf)
  {
  }

  lemma MixedLengthsBreak<J>(c: Json<J>, line: Bytes)
    requires NEWLINE !in line && Mixed(c.Head(line))
    ensures var a := line + [NEWLINE] + Zeros(Max(c.Head(line).dataLength + c.Head(line).payloadLength, 0));
            Parse(c, a + [0]).leftover == [] && Resume(c, a, [0]).leftover == [0]
  {
    var h := c.Head(line);
    var body := Zeros(Max(h.dataLength + h.payloadLength, 0));
    var a := line + [NEWLINE] + body;
    IndexIsFirst(line, body);
    IndexIsFirst(line, body + [0]);
    assert a + [0] == line + [NEWLINE] + (body + [0]);
    assert a[..|line|] == line && (a + [0])[..|line|] == line;
    assert a[|line| + 1..] == body && (a + [0])[|line| + 1..] == body + [0];
    assert Next(c, a).rest == [] && Next(c, a + [0]).rest == [];
    NoNewlineWaits(c, []);
    NoNewlineWaits(c, [0]);
    assert [] + [0] == [0 as byte];
  }

  /** The framing is independent of how the bytes arrive exactly when no header
      line mixes a positive length with a negative one. */
  lemma SplitSafeExactlyWhenUnmixed<J(!new)>(c: Json<J>)
    ensures SplitSafe(c) <==> forall line: Bytes :: NEWLINE !in line ==> !Mixed(c.Head(line))
  {
    hide Parse, Resume, Mixed;
    if forall line: Bytes :: NEWLINE !in line ==> !Mixed(c.Head(line)) {
      forall a, b ensures Parse(c, a + b) == Resume(c, a, b) {
        UnmixedIsFramed(c, a + b);
        SplitIsInvisible(c, a, b);
      }
    } else {
      var line: Bytes :| NEWLINE !in line && Mixed(c.Head(line));
      MixedLengthsBreak(c, line);
    }
  }

  // ----- Printing -----

  /** A payload that is present and non-empty is announced and appended. */
  function Encode<J>(c: Json<J>, e: Event<J>): Bytes {
    if e.payload.Some? && 0 < |e.payload.value|
    then c.Line(e.kind, e.data, |e.payload.value|) + [NEWLINE] + e.payload.value
    else c.Line(e.kind, e.data, 0) + [NEWLINE]
  }

  function EncodeAll<J>(c: Json<J>, events: seq<Event<J>>): Bytes {
    if events == [] then [] else Encode(c, events[0]) + EncodeAll(c, events[1..])
  }

  /** JSON printing is single-line, and decoding undoes it. */
  ghost predicate RoundTrips<J(!new)>(c: Json<J>) {
    forall kind, data, n: nat ::
      && NEWLINE !in c.Line(kind, data, n)
      && c.Head(c.Line(kind, data, n)) == Header(kind, data, 0, n)
  }

  /** An empty payload is printed like an absent one. */
  function Normal<J>(e: Event<J>): Event<J> {
    if e.payload == Some([]) then e.(payload := None) else e
  }

  function NormalAll<J>(events: seq<Event<J>>): seq<Event<J>> {
    if events == [] then [] else [Normal(events[0])] + NormalAll(events[1..])
  }

  lemma LineThenBody<J(!new)>(c: Json<J>, line: Bytes, body: Bytes)
    requires NEWLINE !in line
    ensures var buf := line + [NEWLINE] + body;
            HeadOf(c, buf) == c.Head(line) && Next(c, buf) == Frame(c, c.Head(line), body)
  {
    hide Frame;
    var buf := line + [NEWLINE] + body;
    IndexIsFirst(line, body);
    assert buf[..|line|] == line && buf[|line| + 1..] == body;
  }

  lemma PayloadThenRest<J>(c: Json<J>, e: Event<J>, payload: Bytes, rest: Bytes)
    requires payload == if e.payload.Some? then e.payload.value else []
    ensures Frame(c, Header(e.kind, e.data, 0, |payload|), payload + rest) == Emit(Normal(e), rest)
  {}

  lemma EncodeIsLine<J>(c: Json<J>, e: Event<J>, payload: Bytes, rest: Bytes)
    requires payload == if e.payload.Some? then e.payload.value else []
    ensures Encode(c, e) + rest == c.Line(e.kind, e.data, |payload|) + [NEWLINE] + (payload + rest)
  {
  }

  lemma OneRoundTrip<J(!new)>(c: Json<J>, e: Event<J>, rest: Bytes)
    requires RoundTrips(c)
    ensures Next(c, Encode(c, e) + rest) == Emit(Normal(e), rest)
    ensures !Mixed(HeadOf(c, Encode(c, e) + rest))
  {
    hide Next, HeadOf, Frame, Normal, Encode;
    var payload := if e.payload.Some? then e.payload.value else [];
    EncodeIsLine(c, e, payload, rest);
    LineThenBody(c, c.Line(e.kind, e.data, |payload|), payload + rest);
    PayloadThenRest(c, e, payload, rest);
  }

  lemma {:induction false} EncodedParses<J(!new)>(c: Json<J>, events: seq<Event<J>>)
    requires RoundTrips(c)
    ensures Parse(c, EncodeAll(c, events)) == Parsed(NormalAll(events), [])
    ensures Framed(c, EncodeAll(c, events))
  {
    if events != [] {
      OneRoundTrip(c, events[0], EncodeAll(c, events[1..]));
      EncodedParses(c, events[1..]);
    }
  }

  /** Printing a list of events and reading the bytes back in any pieces returns
      the list, with nothing left over. */
  lemma EncodeThenFeed<J(!new)>(c: Json<J>, events: seq<Event<J>>, pieces: seq<Bytes>)
    requires RoundTrips(c)
    requires Join(pieces) == EncodeAll(c, events)
    ensures FeedAll(c, [], pieces) == Parsed(NormalAll(events), [])
  {
    EncodedParses(c, events);
    assert [] + Join(pieces) == Join(pieces);
    AnySplitParsesAlike(c, [], pieces);
  }
}
