/** Browser capture: the worklet cuts samples into fixed chunks, and the endpointer
    turns chunks into utterances. */
module Capture {
  import opened Basics

  // ----- The worklet -----

  type Sample = real

  function Join(chunks: seq<seq<Sample>>): seq<Sample> {
    if chunks == [] then [] else Join(chunks[..|chunks| - 1]) + chunks[|chunks| - 1]
  }

  lemma JoinAfter(chunks: seq<seq<Sample>>, c: seq<Sample>)
    ensures Join(chunks + [c]) == Join(chunks) + c
  {}

  class PcmCaptureProcessor {
    const chunkSize: nat
    const buffer: array<Sample>
    var offset: nat
    var posted: seq<seq<Sample>>

    ghost predicate Valid()
      reads this, buffer
    {
      && 0 < chunkSize == buffer.Length
      && offset < chunkSize
      && forall k :: 0 <= k < |posted| ==> |posted[k]| == chunkSize
    }

    /** Every sample taken so far: what was posted, then the partial buffer. */
    ghost function Samples(): seq<Sample>
      requires Valid()
      reads this, buffer
    {
      Join(posted) + buffer[..offset]
    }

    constructor (size: nat)
      requires 0 < size
      ensures Valid() && chunkSize == size && fresh(buffer) && posted == [] && Samples() == []
    {
      chunkSize, buffer := size, new Sample[size];
      offset, posted := 0, [];
    }

    method Process(input: Option<seq<Sample>>)
      requires Valid()
      modifies this, buffer
      ensures Valid() && old(posted) <= posted
      ensures Samples() == old(Samples()) + (match input case Some(s) => s case None => [])
    {
      if input.None? {
        assert Samples() == old(Samples()) + [];
        return;
      }
      var samples, src := input.value, 0;
      assert old(Samples()) + samples[..0] == old(Samples());
      while src < |samples|
        invariant Valid() && src <= |samples| && old(posted) <= posted
        invariant Samples() == old(Samples()) + samples[..src]
      {
        ghost var was := Samples();
        var count := Fill(samples, src);
        assert old(Samples()) + samples[..src] + samples[src..src + count] == old(Samples()) + samples[..src + count];
        src := src + count;
      }
      assert samples[..src] == samples;
    }

    /** One turn of the loop: as much input as the chunk has room for. */
    method Fill(samples: seq<Sample>, src: nat) returns (count: nat)
      requires Valid() && src < |samples|
      modifies this`offset, this`posted, buffer
      ensures Valid() && 0 < count && src + count <= |samples| && old(posted) <= posted
      ensures Samples() == old(Samples()) + samples[src..src + count]
    {
      hide Join;
      var room := chunkSize - offset;
      count := if room < |samples| - src then room else |samples| - src;
      ghost var part := samples[src..src + count];
      assert Join(posted) + (buffer[..offset] + part) == Samples() + part;
      Copy(samples[src..src + count], offset);
      offset := offset + count;
      if offset == chunkSize {
        assert buffer[..] == buffer[..offset];
        JoinAfter(posted, buffer[..]);
        posted, offset := posted + [buffer[..]], 0;
        assert Join(posted) + buffer[..0] == Join(posted);
      }
    }

    method Copy(part: seq<Sample>, start: nat)
      requires start + |part| <= buffer.Length
      modifies buffer
      ensures buffer[..start] == old(buffer[..start])
      ensures buffer[start..start + |part|] == part
      ensures buffer[..start + |part|] == old(buffer[..start]) + part
    {
      for i := 0 to |part|
        invariant buffer[..start + i] == old(buffer[..start]) + part[..i]
      {
        buffer[start + i] := part[i];
        assert buffer[..start + i] == old(buffer[..start]) + part[..i];
      }
      assert part[..|part|] == part;
    }
  }

  // ----- The endpointer -----

  type Chunk = seq<int>

  /** Whether a chunk sounds like speech: any predicate on its samples. */
  type Detector = Chunk -> bool

  datatype Event = Start | Send(chunk: Chunk) | End

  datatype State = State(pre: seq<Chunk>, voiced: nat, quiet: nat, duration: nat, active: bool)

  const INITIAL := State([], 0, 0, 0, false)
  const PRE_ROLL := 4800
  const VOICED := 3200
  const QUIET := 11200
  const LONGEST := 480000

  function Total(chunks: seq<Chunk>): nat {
    if chunks == [] then 0 else |chunks[0]| + Total(chunks[1..])
  }

  function Trim(chunks: seq<Chunk>): (kept: seq<Chunk>)
    ensures Total(kept) <= PRE_ROLL
    ensures |kept| <= |chunks| && kept == chunks[|chunks| - |kept|..]
  {
    if Total(chunks) <= PRE_ROLL then chunks else Trim(chunks[1..])
  }

  function Sends(chunks: seq<Chunk>): (events: seq<Event>)
    ensures |events| == |chunks|
    ensures forall k :: 0 <= k < |chunks| ==> events[k] == Send(chunks[k])
  {
    if chunks == [] then [] else [Send(chunks[0])] + Sends(chunks[1..])
  }

  datatype Output = Output(state: State, events: seq<Event>)

  function Step(speech: Detector, s: State, c: Chunk): Output {
    if !s.active then
      var pre, voiced := Trim(s.pre + [c]), if speech(c) then s.voiced + |c| else 0;
      if voiced < VOICED then Output(s.(pre := pre, voiced := voiced), [])
      else Output(State([], voiced, 0, 0, true), [Start] + Sends(pre))
    else
      var duration, quiet := s.duration + |c|, if speech(c) then 0 else s.quiet + |c|;
      if QUIET <= quiet || LONGEST <= duration then Output(INITIAL, [Send(c), End])
      else Output(s.(duration := duration, quiet := quiet), [Send(c)])
  }

  function Run(speech: Detector, chunks: seq<Chunk>): Output {
    if chunks == [] then Output(INITIAL, [])
    else
      var before := Run(speech, chunks[..|chunks| - 1]);
      var now := Step(speech, before.state, chunks[|chunks| - 1]);
      Output(now.state, before.events + now.events)
  }

  lemma RunAfter(speech: Detector, chunks: seq<Chunk>, c: Chunk)
    ensures var before, after := Run(speech, chunks), Run(speech, chunks + [c]);
            var now := Step(speech, before.state, c);
            after == Output(now.state, before.events + now.events)
  {}

  class SpeechSegmenter {
    const speech: Detector
    var pre: seq<Chunk>
    var voiced: nat
    var quiet: nat
    var duration: nat
    var active: bool

    /** History since the last reset. */
    ghost var pushed: seq<Chunk>
    ghost var emitted: seq<Event>

    ghost predicate Valid()
      reads this
    {
      Output(State(pre, voiced, quiet, duration, active), emitted) == Run(speech, pushed)
    }

    constructor (detector: Detector)
      ensures Valid() && speech == detector && pushed == []
    {
      speech := detector;
      pre, voiced, quiet, duration, active := [], 0, 0, 0, false;
      pushed, emitted := [], [];
    }

    method Reset()
      modifies this
      ensures Valid() && pushed == [] && !active
    {
      Clear();
      pushed, emitted := [], [];
    }

    method Clear()
      modifies this`pre, this`voiced, this`quiet, this`duration, this`active
      ensures State(pre, voiced, quiet, duration, active) == INITIAL
    {
      pre, voiced, quiet, duration, active := [], 0, 0, 0, false;
    }

    method TrimPre()
      modifies this`pre
      ensures pre == Trim(old(pre))
    {
      while Total(pre) > PRE_ROLL
        invariant Trim(pre) == Trim(old(pre))
        decreases |pre|
      {
        pre := pre[1..];
      }
    }

    method Push(pcm: Chunk) returns (events: seq<Event>)
      requires Valid()
      modifies this
      ensures Valid() && pushed == old(pushed) + [pcm] && emitted == old(emitted) + events
    {
      hide Run, Trim, Sends;
      RunAfter(speech, pushed, pcm);
      if !active {
        pre := pre + [pcm];
        TrimPre();
        voiced := if speech(pcm) then voiced + |pcm| else 0;
        if voiced < VOICED {
          events := [];
        } else {
          active, quiet, duration := true, 0, 0;
          events := [Start] + Sends(pre);
          pre := [];
        }
      } else {
        duration := duration + |pcm|;
        quiet := if speech(pcm) then 0 else quiet + |pcm|;
        if quiet >= QUIET || duration >= LONGEST {
          Clear();
          events := [Send(pcm), End];
        } else {
          events := [Send(pcm)];
        }
      }
      pushed, emitted := pushed + [pcm], emitted + events;
    }
  }

  // ----- What is sent -----

  /** The chunks sent after each start, one list an utterance. */
  function Utterances(events: seq<Event>): seq<seq<Chunk>> {
    if events == [] then []
    else
      var u, last := Utterances(events[..|events| - 1]), |events| - 1;
      match events[last]
      case Start => u + [[]]
      case Send(c) => if u == [] then [[c]] else Extended(u, [c])
      case End => u
  }

  /** Start, sends, end, and so on: whether the events are well formed, and if so
      whether an utterance is open after them. */
  function Open(events: seq<Event>): Option<bool> {
    if events == [] then Some(false)
    else
      var open := Open(events[..|events| - 1]);
      if open.None? then None
      else if events[|events| - 1].Start? then (if open.value then None else Some(true))
      else if open.value then Some(events[|events| - 1].Send?)
      else None
  }

  lemma OpenAfter(events: seq<Event>, e: Event)
    ensures Open(events + [e]) ==
            var open := Open(events);
            if open.None? then None
            else if e.Start? then (if open.value then None else Some(true))
            else if open.value then Some(e.Send?)
            else None
    ensures Utterances(events + [e]) ==
            var u := Utterances(events);
            match e
            case Start => u + [[]]
            case Send(c) => (if u == [] then [[c]] else Extended(u, [c]))
            case End => u
  {}

  /** An utterance as a run of the captured chunks: where it begins, the chunk that
      started it, and where it stops. */
  datatype Cut = Cut(from: nat, trigger: nat, to: nat)

  /** The last utterance goes on up to `to`. */
  function Stretched(cuts: seq<Cut>, to: nat): (r: seq<Cut>)
    requires cuts != []
    ensures |r| == |cuts| && IdleFrom(r) == to
    ensures forall k :: 0 <= k < |cuts| - 1 ==> r[k] == cuts[k]
    ensures r[|cuts| - 1] == cuts[|cuts| - 1].(to := to)
  {
    cuts[|cuts| - 1 := cuts[|cuts| - 1].(to := to)]
  }

  function Extended(u: seq<seq<Chunk>>, chunks: seq<Chunk>): (r: seq<seq<Chunk>>)
    requires u != []
    ensures |r| == |u|
    ensures forall k :: 0 <= k < |u| - 1 ==> r[k] == u[k]
    ensures r[|u| - 1] == u[|u| - 1] + chunks
  {
    u[|u| - 1 := u[|u| - 1] + chunks]
  }

  lemma ExtendTwice(u: seq<seq<Chunk>>, a: seq<Chunk>, b: seq<Chunk>)
    requires u != []
    ensures Extended(Extended(u, a), b) == Extended(u, a + b)
    ensures Extended(u, []) == u
  {
    var last := u[|u| - 1];
    assert last + a + b == last + (a + b) && last + [] == last;
  }

  lemma Regroup<T>(a: seq<T>, x: T, b: seq<T>)
    ensures a + [x] + b == a + ([x] + b)
  {
  }

  lemma {:induction false} AfterSends(events: seq<Event>, chunks: seq<Chunk>)
    requires Open(events) == Some(true) && Utterances(events) != []
    ensures Open(events + Sends(chunks)) == Some(true)
    ensures Utterances(events + Sends(chunks)) == Extended(Utterances(events), chunks)
    decreases |chunks|
  {
    hide Open, Utterances, Extended;
    var u := Utterances(events);
    if chunks == [] {
      ExtendTwice(u, [], []);
      assert events + [] == events;
    } else {
      OpenAfter(events, Send(chunks[0]));
      AfterSends(events + [Send(chunks[0])], chunks[1..]);
      Regroup(events, Send(chunks[0]), Sends(chunks[1..]));
      ExtendTwice(u, [chunks[0]], chunks[1..]);
      assert [chunks[0]] + chunks[1..] == chunks;
    }
  }

  /** The cuts after chunk `n`: an open utterance goes on, a new one has kept `kept` chunks. */
  function NextCuts(cuts: seq<Cut>, wasActive: bool, isActive: bool, n: nat, kept: nat): (r: seq<Cut>)
    ensures |cuts| <= |r| <= |cuts| + 1
  {
    if wasActive && cuts != [] then Stretched(cuts, n + 1)
    else if isActive then cuts + [Cut(Max(n + 1 - kept, 0), n, n + 1)]
    else cuts
  }

  /** One cut per utterance, in order and apart from each other. */
  function Cuts(speech: Detector, chunks: seq<Chunk>): seq<Cut> {
    if chunks == [] then []
    else
      var n := |chunks| - 1;
      var cuts, s := Cuts(speech, chunks[..n]), Run(speech, chunks[..n]).state;
      NextCuts(cuts, s.active, Run(speech, chunks).state.active, n, |Trim(s.pre + [chunks[n]])|)
  }

  /** Where the chunks heard after the first `k` utterances begin. */
  function IdleAfter(cuts: seq<Cut>, k: nat): nat
    requires k <= |cuts|
  {
    if k == 0 then 0 else cuts[k - 1].to
  }

  function IdleFrom(cuts: seq<Cut>): nat { IdleAfter(cuts, |cuts|) }

  /** The longest run of speech at the end. */
  function Tail(speech: Detector, chunks: seq<Chunk>): (k: nat)
    ensures k <= |chunks|
    ensures forall j :: k <= j < |chunks| ==> speech(chunks[j])
    ensures 0 < k ==> !speech(chunks[k - 1])
  {
    if chunks == [] then 0
    else if speech(chunks[|chunks| - 1]) then Tail(speech, chunks[..|chunks| - 1])
    else |chunks|
  }

  lemma {:induction false} TotalAfter(chunks: seq<Chunk>, c: Chunk)
    ensures Total(chunks + [c]) == Total(chunks) + |c|
  {
    if chunks == [] {
      assert [] + [c] == [c];
    } else {
      assert (chunks + [c])[1..] == chunks[1..] + [c];
      TotalAfter(chunks[1..], c);
    }
  }

  lemma {:induction false} SuffixIsNoMore(chunks: seq<Chunk>, j: nat)
    requires j <= |chunks|
    ensures Total(chunks[j..]) <= Total(chunks)
    decreases |chunks|
  {
    if j > 0 {
      assert chunks[1..][j - 1..] == chunks[j..];
      SuffixIsNoMore(chunks[1..], j - 1);
    }
  }

  /** Trimming keeps a suffix exactly when that suffix fits the pre-roll. */
  lemma {:induction false} TrimKeeps(chunks: seq<Chunk>, j: nat)
    requires j <= |chunks|
    ensures Total(chunks[j..]) <= PRE_ROLL <==> |chunks| - j <= |Trim(chunks)|
    decreases |chunks|
  {
    if Total(chunks) <= PRE_ROLL {
      SuffixIsNoMore(chunks, j);
    } else if j > 0 {
      assert chunks[1..][j - 1..] == chunks[j..];
      TrimKeeps(chunks[1..], j - 1);
    } else {
      assert chunks[0..] == chunks;
    }
  }

  /** Trimming after every chunk is trimming once. */
  lemma {:induction false} TrimTwice(chunks: seq<Chunk>, c: Chunk)
    ensures Trim(Trim(chunks) + [c]) == Trim(chunks + [c])
    decreases |chunks|
  {
    if Total(chunks) > PRE_ROLL {
      TotalAfter(chunks, c);
      assert (chunks + [c])[1..] == chunks[1..] + [c];
      TrimTwice(chunks[1..], c);
    }
  }

  /** Between utterances: the pre-roll is what fits of the idle chunks, and the
      speech at their end is still too short. */
  ghost predicate Listening(speech: Detector, idle: seq<Chunk>, s: State) {
    s.pre == Trim(idle) && s.voiced == Total(idle[Tail(speech, idle)..]) < VOICED
  }

  function Silent(speech: Detector): Detector { c => !speech(c) }

  /** During an utterance: all that was heard since its trigger, and the silence at the end. */
  ghost predicate Speaking(speech: Detector, rest: seq<Chunk>, s: State) {
    s.duration == Total(rest) && s.quiet == Total(rest[Tail(Silent(speech), rest)..])
  }

  /** What was heard since the trigger ends the utterance: 700 ms of silence at its end, or 30 s
      in all. */
  ghost predicate Over(speech: Detector, rest: seq<Chunk>) {
    QUIET <= Total(rest[Tail(Silent(speech), rest)..]) || LONGEST <= Total(rest)
  }

  lemma NotOverYet(speech: Detector)
    ensures !Over(speech, []) && Speaking(speech, [], State([], 0, 0, 0, true))
  {
    var none: seq<Chunk> := [];
    assert none[0..] == none;
  }

  lemma SpeaksOn(speech: Detector, rest: seq<Chunk>, s: State, c: Chunk)
    requires s.active && Speaking(speech, rest, s)
    ensures Step(speech, s, c).state.active <==> !Over(speech, rest + [c])
    ensures Step(speech, s, c).state.active ==> Speaking(speech, rest + [c], Step(speech, s, c).state)
  {
    hide Total, Tail;
    TailAfter(Silent(speech), rest, c);
    TotalAfter(rest, c);
  }

  /** How the endpointer stands after any chunks. */
  ghost predicate Tracked(speech: Detector, chunks: seq<Chunk>) {
    var run, cuts := Run(speech, chunks), Cuts(speech, chunks);
    && Open(run.events) == Some(run.state.active)
    && |Utterances(run.events)| == |cuts|
    && IdleFrom(cuts) <= |chunks|
    && (run.state.active ==>
          && cuts != [] && IdleFrom(cuts) == |chunks| && cuts[|cuts| - 1].trigger < |chunks|
          && Speaking(speech, chunks[cuts[|cuts| - 1].trigger + 1..], run.state))
    && (!run.state.active ==> Listening(speech, chunks[IdleFrom(cuts)..], run.state))
  }

  lemma TailAfter(speech: Detector, idle: seq<Chunk>, c: Chunk)
    ensures var now := idle + [c];
            Total(now[Tail(speech, now)..]) == if speech(c) then Total(idle[Tail(speech, idle)..]) + |c| else 0
    ensures speech(c) ==> Tail(speech, idle + [c]) == Tail(speech, idle)
  {
    var now := idle + [c];
    assert now[..|idle|] == idle;
    if speech(c) {
      var k := Tail(speech, idle);
      assert now[k..] == idle[k..] + [c];
      TotalAfter(idle[k..], c);
    }
  }

  lemma ListensOn(speech: Detector, idle: seq<Chunk>, s: State, c: Chunk)
    requires Listening(speech, idle, s)
    ensures var voiced := if speech(c) then s.voiced + |c| else 0;
            && Trim(s.pre + [c]) == Trim(idle + [c])
            && Total((idle + [c])[Tail(speech, idle + [c])..]) == voiced
            && (voiced < VOICED ==> Listening(speech, idle + [c], s.(pre := Trim(s.pre + [c]), voiced := voiced)))
  {
    hide Trim, Total, Tail;
    TrimTwice(idle, c);
    TailAfter(speech, idle, c);
  }

  lemma StillShort(speech: Detector, idle: seq<Chunk>, s: State)
    requires Listening(speech, idle, s)
    ensures Total(idle[Tail(speech, idle)..]) < VOICED
  {
  }

  lemma ListensAnew(speech: Detector, chunks: seq<Chunk>)
    ensures Listening(speech, chunks[|chunks|..], INITIAL)
  {
  }

  lemma {:induction false} AlwaysTracked(speech: Detector, chunks: seq<Chunk>)
    ensures Tracked(speech, chunks)
    decreases |chunks|
  {
    hide Tracked;
    if chunks == [] {
      NothingTracked(speech);
    } else {
      var n := |chunks| - 1;
      AlwaysTracked(speech, chunks[..n]);
      TrackStep(speech, chunks[..n], chunks[n]);
      assert chunks == chunks[..n] + [chunks[n]];
    }
  }

  lemma NothingTracked(speech: Detector)
    ensures Tracked(speech, [])
  {}

  lemma CutsAfter(speech: Detector, chunks: seq<Chunk>, c: Chunk)
    ensures var s, active := Run(speech, chunks).state, Run(speech, chunks + [c]).state.active;
            Cuts(speech, chunks + [c]) == NextCuts(Cuts(speech, chunks), s.active, active, |chunks|,
                |Trim(s.pre + [c])|)
  {
    hide Run, Trim, NextCuts;
    assert (chunks + [c])[..|chunks|] == chunks;
  }

  lemma StepActive(speech: Detector, chunks: seq<Chunk>, c: Chunk)
    requires Tracked(speech, chunks) && Run(speech, chunks).state.active
    ensures Cuts(speech, chunks) != [] && Utterances(Run(speech, chunks).events) != []
    ensures Cuts(speech, chunks + [c]) == Stretched(Cuts(speech, chunks), |chunks| + 1)
    ensures Utterances(Run(speech, chunks + [c]).events) == Extended(Utterances(Run(speech, chunks).events), [c])
    ensures Open(Run(speech, chunks + [c]).events) == Some(Run(speech, chunks + [c]).state.active)
  {
    hide Open, Utterances, Listening, Run, Cuts, Stretched, Extended;
    RunAfter(speech, chunks, c);
    CutsAfter(speech, chunks, c);
    var events := Run(speech, chunks).events;
    OpenAfter(events, Send(c));
    OpenAfter(events + [Send(c)], End);
    Regroup(events, Send(c), [End]);
    assert [Send(c)] + [End] == [Send(c), End];
  }

  lemma StepIdle(speech: Detector, chunks: seq<Chunk>, c: Chunk)
    requires Tracked(speech, chunks) && !Run(speech, chunks).state.active
    ensures var n, cuts, u := |chunks|, Cuts(speech, chunks), Utterances(Run(speech, chunks).events);
            var pre, after := Trim(Run(speech, chunks).state.pre + [c]), Run(speech, chunks + [c]);
            Cuts(speech, chunks + [c]) == NextCuts(cuts, false, after.state.active, n, |pre|)
            && Utterances(after.events) == (if after.state.active then u + [pre] else u)
            && Open(after.events) == Some(after.state.active)
  {
    hide Open, Utterances, Listening, Trim, Run, Cuts, Sends, Extended, NextCuts;
    RunAfter(speech, chunks, c);
    CutsAfter(speech, chunks, c);
    var run := Run(speech, chunks);
    Begins(run.events, Trim(run.state.pre + [c]));
    NothingAdded(run.events);
  }

  lemma TrackStep(speech: Detector, chunks: seq<Chunk>, c: Chunk)
    requires Tracked(speech, chunks)
    ensures Tracked(speech, chunks + [c])
  {
    hide *;
    if Run(speech, chunks).state.active {
      TrackActive(speech, chunks, c);
    } else {
      TrackIdle(speech, chunks, c);
    }
  }

  lemma TrackActive(speech: Detector, chunks: seq<Chunk>, c: Chunk)
    requires Tracked(speech, chunks) && Run(speech, chunks).state.active
    ensures Tracked(speech, chunks + [c])
  {
    hide Open, Utterances, Listening, Run, Cuts, Stretched, Extended, Speaking, Over;
    RunAfter(speech, chunks, c);
    StepActive(speech, chunks, c);
    ListensAnew(speech, chunks + [c]);
    var cuts := Cuts(speech, chunks);
    var from := cuts[|cuts| - 1].trigger + 1;
    SpeaksOn(speech, chunks[from..], Run(speech, chunks).state, c);
    assert (chunks + [c])[from..] == chunks[from..] + [c];
  }

  lemma TrackIdle(speech: Detector, chunks: seq<Chunk>, c: Chunk)
    requires Tracked(speech, chunks) && !Run(speech, chunks).state.active
    ensures Tracked(speech, chunks + [c])
  {
    hide Open, Utterances, Listening, Trim, Total, Tail, Run, Cuts, Sends, Extended, Speaking;
    RunAfter(speech, chunks, c);
    StepIdle(speech, chunks, c);
    var run, lo := Run(speech, chunks), IdleFrom(Cuts(speech, chunks));
    ListensOn(speech, chunks[lo..], run.state, c);
    assert (chunks + [c])[lo..] == chunks[lo..] + [c];
    SpeaksAnew(speech, chunks + [c], Run(speech, chunks + [c]).state);
  }

  lemma SpeaksAnew(speech: Detector, chunks: seq<Chunk>, s: State)
    ensures s.quiet == 0 && s.duration == 0 ==> Speaking(speech, chunks[|chunks|..], s)
  {
    assert chunks[|chunks|..] == [];
    NotOverYet(speech);
  }

  /** The events of a start: the utterance's list is its pre-roll. */
  lemma Begins(events: seq<Event>, pre: seq<Chunk>)
    requires Open(events) == Some(false)
    ensures Open(events + ([Start] + Sends(pre))) == Some(true)
    ensures Utterances(events + ([Start] + Sends(pre))) == Utterances(events) + [pre]
  {
    hide Open, Utterances, Sends, Extended;
    var u := Utterances(events);
    OpenAfter(events, Start);
    AfterSends(events + [Start], pre);
    Regroup(events, Start, Sends(pre));
    ExtendLast(u, pre);
  }

  lemma ExtendLast(u: seq<seq<Chunk>>, pre: seq<Chunk>)
    ensures Extended(u + [[]], pre) == u + [pre]
  {
    assert [] + pre == pre;
  }

  /** The chunks heard since the last utterance, up to the one that starts the next:
      the speech at their end is long enough for the first time; what is skipped
      leaves a pre-roll that fits; and none of that speech is skipped exactly when
      all of it fits. */
  ghost predicate Triggers(speech: Detector, heard: seq<Chunk>, skipped: nat) {
    && skipped <= |heard|
    && Total(heard[skipped..]) <= PRE_ROLL
    && var r := Tail(speech, heard);
       && r < |heard|
       && Total(heard[r..|heard| - 1]) < VOICED <= Total(heard[r..])
       && (skipped <= r <==> Total(heard[r..]) <= PRE_ROLL)
  }

  ghost predicate OverAt(speech: Detector, chunks: seq<Chunk>, trigger: nat, j: nat)
    requires trigger < j <= |chunks|
  {
    Over(speech, chunks[trigger + 1..j])
  }

  /** One utterance is chunks[from..to], after the utterance before it. It goes on exactly as
      long as what was heard since its trigger is not over: it is still open if it is not over
      now, and if it is closed it was closed by the first chunk that made it so. */
  ghost predicate IsRun(speech: Detector, chunks: seq<Chunk>, lo: nat, cut: Cut, sent: seq<Chunk>, open: bool) {
    && lo <= cut.from <= cut.trigger + 1 <= cut.to <= |chunks|
    && sent == chunks[cut.from..cut.to]
    && lo <= cut.trigger
    && Triggers(speech, chunks[lo..cut.trigger + 1], cut.from - lo)
    && (forall j :: cut.trigger < j < cut.to ==> !OverAt(speech, chunks, cut.trigger, j))
    && (open <==> !OverAt(speech, chunks, cut.trigger, cut.to))
  }

  ghost predicate RunsOf(speech: Detector, chunks: seq<Chunk>, cuts: seq<Cut>, u: seq<seq<Chunk>>,
                         open: bool)
  {
    && |u| == |cuts|
    && forall k :: 0 <= k < |cuts| ==>
         IsRun(speech, chunks, IdleAfter(cuts, k), cuts[k], u[k], open && k == |cuts| - 1)
  }

  ghost predicate AllRuns(speech: Detector, chunks: seq<Chunk>) {
    var events := Run(speech, chunks).events;
    RunsOf(speech, chunks, Cuts(speech, chunks), Utterances(events), Open(events) == Some(true))
  }

  lemma SlicePrefix(a: seq<Chunk>, c: Chunk, i: nat, j: nat)
    requires i <= j <= |a|
    ensures (a + [c])[i..j] == a[i..j]
    ensures (a + [c])[i..|a| + 1] == a[i..|a|] + [c]
  {
  }

  lemma RunGrows(speech: Detector, chunks: seq<Chunk>, c: Chunk, lo: nat, cut: Cut, sent: seq<Chunk>, open: bool)
    requires IsRun(speech, chunks, lo, cut, sent, open)
    ensures IsRun(speech, chunks + [c], lo, cut, sent, open)
  {
    hide Triggers, Over;
    SlicePrefix(chunks, c, lo, cut.trigger + 1);
    SlicePrefix(chunks, c, cut.from, cut.to);
    forall j | cut.trigger < j <= cut.to
      ensures OverAt(speech, chunks + [c], cut.trigger, j) <==> OverAt(speech, chunks, cut.trigger, j)
    {
      SlicePrefix(chunks, c, cut.trigger + 1, j);
    }
  }

  /** An open utterance takes the next chunk, and stays open unless that makes it over. */
  lemma RunStretches(speech: Detector, chunks: seq<Chunk>, c: Chunk, lo: nat, cut: Cut, sent: seq<Chunk>)
    requires IsRun(speech, chunks, lo, cut, sent, true) && cut.to == |chunks|
    ensures IsRun(speech, chunks + [c], lo, cut.(to := |chunks| + 1), sent + [c],
              !Over(speech, chunks[cut.trigger + 1..] + [c]))
  {
    hide Triggers, Over;
    RunGrows(speech, chunks, c, lo, cut, sent, true);
    SlicePrefix(chunks, c, cut.from, cut.to);
    SlicePrefix(chunks, c, cut.trigger + 1, cut.to);
    assert chunks[cut.trigger + 1..|chunks|] == chunks[cut.trigger + 1..];
  }

  /** The chunk after `idle` that makes the speech long enough. */
  lemma TriggerHeard(speech: Detector, idle: seq<Chunk>, c: Chunk)
    requires Total(idle[Tail(speech, idle)..]) < VOICED
    requires speech(c) && VOICED <= Total((idle + [c])[Tail(speech, idle + [c])..])
    ensures Triggers(speech, idle + [c], |idle| + 1 - |Trim(idle + [c])|)
  {
    hide Total, Trim, Tail;
    var heard := idle + [c];
    TailAfter(speech, idle, c);
    var k := Tail(speech, idle);
    assert heard[k..|heard| - 1] == idle[k..];
    TrimKeeps(heard, k);
  }

  /** The utterance it starts. */
  lemma RunBegins(speech: Detector, before: seq<Chunk>, heard: seq<Chunk>)
    requires heard != [] && Triggers(speech, heard, |heard| - |Trim(heard)|)
    ensures var n, pre := |before + heard|, Trim(heard);
            IsRun(speech, before + heard, |before|, Cut(n - |pre|, n - 1, n), pre, true)
  {
    hide Triggers, Trim, Over;
    NotOverYet(speech);
    var n := |before + heard|;
    SliceMiddle(before, heard, 0, |heard|);
    SliceMiddle(before, heard, |heard| - |Trim(heard)|, |heard|);
    assert heard[0..|heard|] == heard;
    assert heard[|heard| - |Trim(heard)|..|heard|] == Trim(heard);
    assert (before + heard)[n..n] == [];
  }

  lemma SplitAt(chunks: seq<Chunk>, lo: nat, c: Chunk)
    requires lo <= |chunks|
    ensures chunks[..lo] + (chunks[lo..] + [c]) == chunks + [c]
  {
  }

  lemma NothingAdded<T>(s: seq<T>)
    ensures s + [] == s
  {
  }

  lemma SliceMiddle(a: seq<Chunk>, b: seq<Chunk>, i: nat, j: nat)
    requires i <= j <= |b|
    ensures (a + b)[|a| + i..|a| + j] == b[i..j]
  {
  }

  lemma {:induction false} UtterancesAreRuns(speech: Detector, chunks: seq<Chunk>)
    ensures AllRuns(speech, chunks)
    decreases |chunks|
  {
    hide *;
    if chunks == [] {
      NoRuns(speech);
    } else {
      var n := |chunks| - 1;
      UtterancesAreRuns(speech, chunks[..n]);
      RunsStep(speech, chunks[..n], chunks[n]);
      assert chunks == chunks[..n] + [chunks[n]];
    }
  }

  lemma NoRuns(speech: Detector)
    ensures AllRuns(speech, [])
  {
  }

  lemma RunsGrow(speech: Detector, chunks: seq<Chunk>, c: Chunk, cuts: seq<Cut>, u: seq<seq<Chunk>>, open: bool)
    requires RunsOf(speech, chunks, cuts, u, open)
    ensures RunsOf(speech, chunks + [c], cuts, u, open)
  {
    hide IsRun;
    forall k | 0 <= k < |cuts|
      ensures IsRun(speech, chunks + [c], IdleAfter(cuts, k), cuts[k], u[k], open && k == |cuts| - 1) {
      RunGrows(speech, chunks, c, IdleAfter(cuts, k), cuts[k], u[k], open && k == |cuts| - 1);
    }
  }

  lemma RunsStretch(speech: Detector, chunks: seq<Chunk>, c: Chunk, cuts: seq<Cut>, u: seq<seq<Chunk>>)
    requires RunsOf(speech, chunks, cuts, u, true) && cuts != [] && IdleFrom(cuts) == |chunks|
    requires cuts[|cuts| - 1].trigger < |chunks|
    ensures RunsOf(speech, chunks + [c], Stretched(cuts, |chunks| + 1), Extended(u, [c]),
              !Over(speech, chunks[cuts[|cuts| - 1].trigger + 1..] + [c]))
  {
    hide IsRun, Stretched, Extended, Over;
    RunsGrow(speech, chunks, c, cuts, u, true);
    var last := |cuts| - 1;
    RunStretches(speech, chunks, c, IdleAfter(cuts, last), cuts[last], u[last]);
  }

  lemma RunsAppend(speech: Detector, chunks: seq<Chunk>, cuts: seq<Cut>, u: seq<seq<Chunk>>, cut: Cut, sent: seq<Chunk>)
    requires RunsOf(speech, chunks, cuts, u, false) && IsRun(speech, chunks, IdleFrom(cuts), cut, sent, true)
    ensures RunsOf(speech, chunks, cuts + [cut], u + [sent], true)
  {
    hide IsRun;
  }

  /** The utterance that a chunk starts, if it starts one. */
  lemma StartedRun(speech: Detector, chunks: seq<Chunk>, c: Chunk)
    requires Tracked(speech, chunks) && !Run(speech, chunks).state.active && Run(speech, chunks + [c]).state.active
    ensures var n, pre := |chunks|, Trim(Run(speech, chunks).state.pre + [c]);
            && |pre| <= n + 1
            && IsRun(speech, chunks + [c], IdleFrom(Cuts(speech, chunks)), Cut(n + 1 - |pre|, n, n + 1), pre, true)
  {
    hide Open, Utterances, Listening, Trim, Total, Tail, Run, Cuts, Sends, IsRun, Triggers;
    RunAfter(speech, chunks, c);
    var s, lo := Run(speech, chunks).state, IdleFrom(Cuts(speech, chunks));
    var idle := chunks[lo..];
    ListensOn(speech, idle, s, c);
    StillShort(speech, idle, s);
    TriggerHeard(speech, idle, c);
    SplitAt(chunks, lo, c);
    RunBegins(speech, chunks[..lo], idle + [c]);
  }

  lemma RunsStep(speech: Detector, chunks: seq<Chunk>, c: Chunk)
    requires AllRuns(speech, chunks)
    ensures AllRuns(speech, chunks + [c])
  {
    hide Open, Utterances, Trim, Total, Tail, Run, Cuts, Sends, IsRun, RunsOf, Triggers, Stretched,
      Extended, Listening, Speaking, Over;
    AlwaysTracked(speech, chunks);
    var run, cuts := Run(speech, chunks), Cuts(speech, chunks);
    var u := Utterances(run.events);
    if run.state.active {
      StepActive(speech, chunks, c);
      RunAfter(speech, chunks, c);
      SpeaksOn(speech, chunks[cuts[|cuts| - 1].trigger + 1..], run.state, c);
      RunsStretch(speech, chunks, c, cuts, u);
    } else {
      StepIdle(speech, chunks, c);
      RunsGrow(speech, chunks, c, cuts, u, false);
      if Run(speech, chunks + [c]).state.active {
        StartedRun(speech, chunks, c);
        var pre := Trim(run.state.pre + [c]);
        RunsAppend(speech, chunks + [c], cuts, u, Cut(|chunks| + 1 - |pre|, |chunks|, |chunks| + 1), pre);
      }
    }
  }

  /** Chunks of at most 1600 samples always leave room for the triggering speech. */
  lemma TriggerIsSent(speech: Detector, heard: seq<Chunk>, skipped: nat)
    requires Triggers(speech, heard, skipped)
    requires |heard[|heard| - 1]| <= 1600
    ensures skipped <= Tail(speech, heard)
  {
    hide Total, Tail;
    var r, t := Tail(speech, heard), |heard| - 1;
    assert heard[r..] == heard[r..t] + [heard[t]];
    TotalAfter(heard[r..t], heard[t]);
  }
}
