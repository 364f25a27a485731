/** The deferred audio.end queue of one realtime session. A turn's end is queued
    when its text completes and sent only when its own media has left the output
    queue. Methods are the code between two awaits; whether this peer owns the
    device's control state is the environment's and is passed in. */
module TurnEnds {
  import opened Basics

  type Media = nat
  type Agent = nat

  /** A completed turn: the resolver's verdict, whether it has audio, and the exact
      media it must wait for. Turns without media wait for a bot-idle credit. */
  datatype End = End(followUp: bool, hasAudio: bool, media: Option<Media>)

  /** What the device was told, and when the user barged in. */
  datatype Event = BargeIn | Sent(end: End, followUp: bool) | Terminal

  /** A barge-in that no end has been sent after. */
  ghost predicate Interrupted(h: seq<Event>) {
    h != [] && (h[|h| - 1].BargeIn? || (h[|h| - 1].Terminal? && Interrupted(h[..|h| - 1])))
  }

  /** Every end sent carries its turn's verdict, except that the first one after a
      barge-in stays listening; and nothing follows the terminal end. */
  ghost predicate Honest(h: seq<Event>) {
    && (forall k :: 0 <= k < |h| && h[k].Sent? ==> h[k].followUp == (h[k].end.followUp || Interrupted(h[..k])))
    && (forall j, k :: 0 <= j < k < |h| && h[j].Terminal? ==> h[k].BargeIn?)
  }

  function SentEnds(h: seq<Event>): seq<End> {
    if h == [] then []
    else SentEnds(h[..|h| - 1]) + (match h[|h| - 1] case Sent(e, _) => [e] case _ => [])
  }

  /** One sequence runs through another in order. */
  predicate Subsequence(a: seq<End>, b: seq<End>) {
    if a == [] then true
    else if b == [] then false
    else if a[|a| - 1] == b[|b| - 1] && Subsequence(a[..|a| - 1], b[..|b| - 1]) then true
    else Subsequence(a, b[..|b| - 1])
  }

  /** A turn without media that was heard: it ends at a silence of its own. */
  predicate Silent(end: End) { end.hasAudio && end.media == None }

  function SilentTurns(ends: seq<End>): nat {
    if ends == [] then 0 else SilentTurns(ends[..|ends| - 1]) + if Silent(ends[|ends| - 1]) then 1 else 0
  }

  lemma SilentAfter(ends: seq<End>, e: End)
    ensures SilentTurns(ends + [e]) == SilentTurns(ends) + if Silent(e) then 1 else 0
  {}

  lemma HonestGrows(h: seq<Event>, e: Event)
    requires Honest(h)
    requires e.Sent? ==> e.followUp == (e.end.followUp || Interrupted(h))
    requires !e.BargeIn? ==> Terminal !in h
    ensures Honest(h + [e])
  {}

  lemma {:induction false} InterruptedAfter(h: seq<Event>)
    ensures Interrupted(h + [BargeIn])
    ensures forall e, f :: !Interrupted(h + [Sent(e, f)])
    ensures Interrupted(h + [Terminal]) == Interrupted(h)
  {}

  lemma SentAfter(h: seq<Event>)
    ensures SentEnds(h + [BargeIn]) == SentEnds(h) == SentEnds(h + [Terminal])
    ensures forall e, f :: SentEnds(h + [Sent(e, f)]) == SentEnds(h) + [e]
  {}

  lemma HeadLeaves(popped: seq<End>, pending: seq<End>, completed: seq<End>)
    requires completed == popped + pending && pending != []
    ensures completed == popped + [pending[0]] + pending[1..]
    ensures popped + [pending[0]] <= completed
    ensures popped == (popped + [pending[0]])[..|popped|] && (popped + [pending[0]])[|popped|] == pending[0]
  {
  }

  class RealtimeSession {
    var pending: seq<End>
    var media: map<Media, Agent>
    var drained: set<Media>
    var credits: nat
    var speaking: nat
    var timer: bool
    var ended: bool
    var bargedIn: bool
    var closed: bool

    /** The agent server's record of media it must be able to cut off. */
    ghost var authority: set<Media>

    /** History: media granted, media acknowledged by the output, completed turns,
        ends that have left the queue, and what the device was sent. */
    ghost var granted: set<Media>
    ghost var acknowledged: set<Media>
    ghost var completed: seq<End>
    ghost var popped: seq<End>
    ghost var events: seq<Event>
    ghost var torndown: bool
    /** Silences that were credited to turns without media. */
    ghost var silences: nat

    ghost predicate Valid()
      reads this
    {
      && media.Keys == authority && drained <= media.Keys && drained <= acknowledged
      && (forall m, n :: m in media && n in media ==> media[m] == media[n])
      && popped <= completed
      && (!ended && !closed ==> completed == popped + pending)
      && (ended ==> pending == [] && credits == 0)
      && (!ended ==> credits + SilentTurns(popped) == silences)
      && (forall e :: e in popped && e.media.Some? ==> e.media.value in acknowledged)
      && (forall m :: m in granted && m !in authority ==> torndown || Ended(m, popped))
      && authority <= granted && acknowledged <= granted
      && (torndown ==> closed && authority == {})
      && Honest(events) && (Terminal in events ==> ended)
      && bargedIn == Interrupted(events)
      && Subsequence(SentEnds(events), popped)
    }

    ghost predicate Ended(m: Media, ends: seq<End>) {
      exists k :: 0 <= k < |ends| && ends[k].media == Some(m)
    }

    constructor ()
      ensures Valid() && !closed && !ended && pending == [] && media == map[] && events == []
    {
      pending, media, drained, credits, speaking, timer := [], map[], {}, 0, 0, false;
      ended, bargedIn, closed := false, false, false;
      authority, granted, acknowledged, completed, popped, events, torndown := {}, {}, {}, [], [], [], false;
      silences := 0;
    }

    // ----- Media authority -----

    /** A turn starts for the active agent. A session that holds another agent's
        media, or finds no agent, gives no turn and starts to close. */
    method BeginTurn(active: Option<Agent>, token: Media) returns (turn: Option<Media>)
      requires Valid() && token !in granted
      modifies this`media, this`authority, this`granted, this`closed, this`timer
      ensures Valid()
      ensures turn == Some(token) <==>
              !old(closed) && active.Some? && forall m :: m in old(media) ==> old(media)[m] == active.value
      ensures turn == Some(token) ==> media == old(media)[token := active.value] && !closed
      ensures turn != Some(token) ==> turn == None && closed && media == old(media) && authority == old(authority)
    {
      if closed {
        return None;
      }
      if active.None? || exists m :: m in media && media[m] != active.value {
        CloseBegins();
        return None;
      }
      media := media[token := active.value];
      authority, granted := authority + {token}, granted + {token};
      turn := Some(token);
    }

    /** The output tap passed this turn's exact end frame. */
    method OutputDrained(m: Media)
      requires Valid()
      modifies this`drained, this`acknowledged
      ensures Valid()
      ensures drained == if m in media && !closed then old(drained) + {m} else old(drained)
    {
      if m in media && !closed {
        drained, acknowledged := drained + {m}, acknowledged + {m};
      }
    }

    // ----- The queue -----

    method CompleteTurn(end: End)
      requires Valid()
      modifies this`pending, this`timer, this`completed
      ensures Valid()
      ensures timer == (old(timer) || (!closed && !ended && end.hasAudio && speaking == 0))
      ensures pending == if old(closed || ended) then old(pending) else old(pending) + [end]
      ensures completed == if old(closed || ended) then old(completed) else old(completed) + [end]
    {
      if closed || ended {
        return;
      }
      pending, completed := pending + [end], completed + [end];
      if end.hasAudio && speaking == 0 {
        timer := true;
      }
    }

    predicate Ready(end: End)
      reads this
    {
      match end.media
      case Some(m) => m in drained
      case None => end.hasAudio ==> 0 < credits
    }

    /** One turn of the drain: take the head off, and release its media. */
    method Pop()
      requires Valid() && !closed && !ended && pending != [] && Ready(pending[0])
      modifies this`pending, this`credits, this`drained, this`media, this`authority, this`popped
      ensures Valid()
      ensures pending == old(pending)[1..] && popped == old(popped) + [old(pending)[0]]
      ensures media == (match old(pending)[0].media case Some(m) => old(media) - {m} case None => old(media))
      ensures drained == (match old(pending)[0].media case Some(m) => old(drained) - {m} case None => old(drained))
      ensures credits == old(credits) - if Silent(old(pending)[0]) then 1 else 0
      ensures popped + pending == old(popped + pending)
    {
      hide Honest, Interrupted, SentEnds, Subsequence, SilentTurns;
      var end := pending[0];
      SilentAfter(popped, end);
      HeadLeaves(popped, pending, completed);
      assert popped + [end] + pending[1..] == popped + pending;
      assert forall m :: Ended(m, popped) ==> Ended(m, popped + [end]);
      Skipped(SentEnds(events), popped, end);
      if end.media.None? && end.hasAudio {
        credits := credits - 1;
      }
      pending, popped := pending[1..], popped + [end];
      if end.media.Some? {
        assert Ended(end.media.value, popped);
        Release(end.media.value);
      }
    }

    /** A turn's media is given up once its end has left the queue. */
    method Release(m: Media)
      requires Valid() && !torndown && Ended(m, popped)
      modifies this`drained, this`media, this`authority
      ensures Valid() && media == old(media) - {m} && drained == old(drained) - {m}
    {
      hide Honest, Interrupted, SentEnds, Subsequence, Ended;
      drained, media, authority := drained - {m}, media - {m}, authority - {m};
    }

    /** Sends the end just popped; a barge-in is used up by the first one. */
    method Send(end: End)
      requires Valid() && !closed && !ended && popped != [] && popped[|popped| - 1] == end
      requires Subsequence(SentEnds(events), popped[..|popped| - 1])
      modifies this`bargedIn, this`events
      ensures Valid() && !bargedIn
      ensures events == old(events) + [Sent(end, end.followUp || old(bargedIn))]
    {
      hide Honest, Interrupted, SentEnds, Subsequence;
      var followUp := end.followUp;
      if bargedIn {
        bargedIn := false;
        if !followUp {
          followUp := true;
        }
      }
      HonestGrows(events, Sent(end, followUp));
      InterruptedAfter(events);
      SentAfter(events);
      Taken(SentEnds(events), popped[..|popped| - 1], end);
      assert popped == popped[..|popped| - 1] + [end];
      events := events + [Sent(end, followUp)];
    }

    /** The drain loop up to its next await: an owner sends one end and awaits the
        send; a peer that lost control only consumes its own media and goes on. */
    method Drain(owns: bool) returns (sending: bool)
      requires Valid()
      modifies this`pending, this`credits, this`drained, this`media, this`authority, this`popped, this`bargedIn,
          this`events
      ensures Valid()
      ensures sending <==> owns && !closed && !ended && old(pending != [] && Ready(pending[0]))
      ensures sending ==>
                && popped == old(popped) + [old(pending)[0]] && pending == old(pending)[1..]
                && events == old(events) + [Sent(old(pending)[0], old(pending)[0].followUp || old(bargedIn))]
      ensures !sending ==> closed || ended || pending == [] || !Ready(pending[0])
      ensures !sending ==> events == old(events) && bargedIn == old(bargedIn)
      ensures owns && !sending ==> popped == old(popped) && pending == old(pending) && media == old(media)
      ensures popped + pending == old(popped + pending) && |popped| >= |old(popped)|
      ensures old(closed || ended) ==> popped == old(popped) && media == old(media) && drained == old(drained)
    {
      hide Honest, Interrupted, SentEnds, Subsequence;
      sending := false;
      while pending != [] && !ended && !closed && !sending
        invariant Valid()
        invariant popped + pending == old(popped + pending) && |popped| >= |old(popped)|
        invariant closed || ended ==> popped == old(popped) && media == old(media) && drained == old(drained)
        invariant events == old(events) || sending
        invariant !sending ==> bargedIn == old(bargedIn)
        invariant owns && !sending ==> popped == old(popped) && pending == old(pending) && media == old(media)
        invariant owns && !sending ==> drained == old(drained) && credits == old(credits)
        invariant sending ==> owns && !closed && !ended && old(pending != [] && Ready(pending[0]))
        invariant sending ==> popped == old(popped) + [old(pending)[0]] && pending == old(pending)[1..]
        invariant sending ==> events == old(events) + [Sent(old(pending)[0], old(pending)[0].followUp || old(bargedIn))]
        decreases |pending|, !sending
      {
        if !Ready(pending[0]) {
          break;
        }
        var end := pending[0];
        ghost var before := popped;
        Pop();
        if owns {
          assert popped[..|popped| - 1] == before;
          Send(end);
          sending := true;
        }
      }
    }

    // ----- Speech around it -----

    predicate ReplyActive()
      reads this
    {
      0 < speaking || timer
    }

    method Interrupt()
      requires Valid()
      modifies this`bargedIn, this`events
      ensures Valid()
      ensures if ReplyActive() then bargedIn && events == old(events) + [BargeIn] else unchanged(this)
    {
      hide Honest, Interrupted, SentEnds, Subsequence;
      if ReplyActive() {
        HonestGrows(events, BargeIn);
        InterruptedAfter(events);
        SentAfter(events);
        bargedIn, events := true, events + [BargeIn];
      }
    }

    method BotStarted()
      requires Valid()
      modifies this`speaking, this`timer
      ensures Valid() && speaking == old(speaking) + 1 && !timer
    {
      speaking, timer := speaking + 1, false;
    }

    method BotStopped()
      requires Valid()
      modifies this`speaking, this`timer
      ensures Valid() && speaking == (if old(speaking) > 0 then old(speaking) - 1 else 0)
      ensures timer == (old(timer) || speaking == 0)
    {
      if speaking > 0 {
        speaking := speaking - 1;
      }
      if speaking == 0 {
        timer := true;
      }
    }

    /** The idle debounce ran out. It may credit a turn without media, never one
        with: silence does not prove that queued output has drained. */
    method Idle()
      requires Valid()
      modifies this`timer, this`credits, this`silences
      ensures Valid() && !timer
      ensures credits ==
              old(credits) + if !closed && speaking == 0 && exists e :: e in pending && Silent(e) then 1 else 0
      ensures silences == old(silences) + credits - old(credits)
      ensures forall e :: e in pending && e.media.Some? ==> Ready(e) == old(Ready(e))
    {
      timer := false;
      if closed || speaking != 0 {
        return;
      }
      if exists e :: e in pending && Silent(e) {
        credits, silences := credits + 1, silences + 1;
      }
    }

    // ----- The end of the session -----

    /** An abnormal teardown tells the device once, and no end follows it. */
    method NotifyEnded(owns: bool)
      requires Valid()
      modifies this`ended, this`pending, this`credits, this`timer, this`events
      ensures Valid() && ended
      ensures if old(ended) then unchanged(this)
              else pending == [] && !timer && events == old(events) + if owns then [Terminal] else []
      ensures media == old(media)
    {
      hide Honest, Interrupted, SentEnds, Subsequence;
      if ended {
        return;
      }
      ended, pending, credits, timer := true, [], 0, false;
      if owns {
        HonestGrows(events, Terminal);
        InterruptedAfter(events);
        SentAfter(events);
        events := events + [Terminal];
      }
    }

    /** Closing stops the queue at once; media authority is given up only when
        every teardown has succeeded, however often closing is tried. */
    method CloseBegins()
      requires Valid()
      modifies this`closed, this`timer
      ensures Valid() && closed && media == old(media) && authority == old(authority)
    {
      closed, timer := true, false;
    }

    method TeardownsReturned(ok: bool)
      requires Valid() && closed
      modifies this`media, this`drained, this`authority, this`pending, this`torndown
      ensures Valid()
      ensures if ok then media == map[] && authority == {} && pending == [] else unchanged(this)
    {
      if ok {
        media, drained, authority, pending, torndown := map[], {}, {}, [], true;
      }
    }

    /** What the interleavings come to. Ends leave in completion order; each agent
        turn's media was acknowledged first, and stays cut-off-able until then; and
        the device hears each turn's verdict, save the one a barge-in covers. */
    lemma EndsInOrder()
      requires Valid()
      ensures popped <= completed
      ensures Subsequence(SentEnds(events), completed)
      ensures forall k :: 0 <= k < |popped| && popped[k].media.Some? ==> popped[k].media.value in acknowledged
      ensures forall m :: m in granted && !Ended(m, popped) && !torndown ==> m in authority
      ensures !ended ==> SilentTurns(popped) <= silences
      ensures forall k :: 0 <= k < |events| && events[k].Sent? ==>
                events[k].followUp == (events[k].end.followUp || Interrupted(events[..k]))
    {
      Longer(SentEnds(events), popped, completed);
      forall k | 0 <= k < |popped| && popped[k].media.Some?
        ensures popped[k].media.value in acknowledged
      {
        assert popped[k] in popped;
      }
    }
  }

  lemma Skipped(a: seq<End>, b: seq<End>, e: End)
    requires Subsequence(a, b)
    ensures Subsequence(a, b + [e])
  {}

  lemma Taken(a: seq<End>, b: seq<End>, e: End)
    requires Subsequence(a, b)
    ensures Subsequence(a + [e], b + [e])
  {}

  lemma {:induction false} Longer(a: seq<End>, b: seq<End>, c: seq<End>)
    requires Subsequence(a, b) && b <= c
    ensures Subsequence(a, c)
    decreases |c|
  {
    if |b| < |c| {
      Longer(a, b, c[..|c| - 1]);
      Skipped(a, c[..|c| - 1], c[|c| - 1]);
      assert c == c[..|c| - 1] + [c[|c| - 1]];
    } else {
      assert b == c;
    }
  }

  /** Said of the whole history: some barge-in has had no end sent after it. */
  lemma {:induction false} InterruptedMeans(h: seq<Event>)
    ensures Interrupted(h) <==> exists j :: 0 <= j < |h| && h[j].BargeIn? && forall i :: j < i < |h| ==> !h[i].Sent?
  {
    if h != [] {
      var last, before := |h| - 1, h[..|h| - 1];
      assert forall i :: 0 <= i < last ==> h[i] == before[i];
      InterruptedMeans(before);
      if h[last].Terminal? && Interrupted(before) {
        var j :| 0 <= j < |before| && before[j].BargeIn? && forall i :: j < i < |before| ==> !before[i].Sent?;
        assert h[j].BargeIn? && forall i :: j < i < |h| ==> !h[i].Sent?;
      }
    }
  }

  /** The flag is one-shot: between two sent ends with no barge-in after the first,
      the second carries its own verdict. */
  lemma {:induction false} OneShot(h: seq<Event>, j: nat, k: nat)
    requires Honest(h) && j < k < |h| && h[j].Sent? && h[k].Sent?
    requires forall i :: j < i < k ==> !h[i].BargeIn?
    ensures h[k].followUp == h[k].end.followUp
  {}

}
