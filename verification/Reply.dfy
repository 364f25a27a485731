/** A streamed reply: deltas gather in a segmenter, idle pauses cut segments, the
    follow-up tag is stripped from each, and one worker speaks them in order. */
module Reply {
  import opened Basics
  import opened FollowUp

  // ----- Segments -----

  class IdleSegmenter {
    const idleEnabled: bool
    var buffer: string
    var ended: bool
    var timer: bool

    /** What it was given, and the segments it has handed on. */
    ghost var taken: string
    ghost var segments: seq<string>
    ghost var aborted: bool

    ghost predicate Valid()
      reads this
    {
      && (!aborted ==> Concat(segments) + buffer == taken)
      && (ended ==> buffer == "" && !timer)
      && (aborted ==> ended)
      && (timer ==> idleEnabled) && (idleEnabled && buffer != "" ==> timer)
      && (timer ==> idleEnabled) && (idleEnabled && buffer != "" ==> timer)
      && (timer ==> idleEnabled) && (idleEnabled && buffer != "" ==> timer)
      && (idleEnabled && buffer != "" ==> timer)
      && (!idleEnabled ==> !timer && |segments| <= (if ended then 1 else 0))
      && "" !in segments
    }

    constructor (pauseMs: int)
      ensures Valid() && !ended && taken == "" && segments == [] && buffer == "" && idleEnabled == (pauseMs > 0)
    {
      idleEnabled := pauseMs > 0;
      buffer, ended, timer, taken, segments, aborted := "", false, false, "", [], false;
    }

    method Push(text: string)
      requires Valid()
      modifies this`buffer, this`timer, this`taken
      ensures Valid()
      ensures taken == if old(ended) then old(taken) else old(taken) + text
      ensures !ended ==> buffer == old(buffer) + text
      ensures old(ended) ==> unchanged(this)
    {
      if ended || text == "" {
        assert taken + "" == taken && buffer + "" == buffer;
        return;
      }
      assert Concat(segments) + (buffer + text) == Concat(segments) + buffer + text;
      buffer, taken := buffer + text, taken + text;
      if idleEnabled {
        timer := true;
      }
    }

    /** The stream paused. */
    method Flush() returns (segment: Option<string>)
      requires Valid() && timer
      modifies this`buffer, this`timer, this`segments
      ensures Valid() && !timer && taken == old(taken)
      ensures buffer == "" && segment == if old(buffer) == "" then None else Some(old(buffer))
      ensures segments == if segment.Some? then old(segments) + [segment.value] else old(segments)
    {
      timer := false;
      if ended || buffer == "" {
        return None;
      }
      segment := Some(buffer);
      ConcatAfter(segments, buffer);
      segments, buffer := segments + [buffer], "";
    }

    method End() returns (last: Option<string>)
      requires Valid() && !ended
      modifies this`buffer, this`timer, this`ended, this`segments
      ensures Valid() && ended && taken == old(taken)
      ensures last == if old(buffer) == "" then None else Some(old(buffer))
      ensures segments == if last.Some? then old(segments) + [last.value] else old(segments)
    {
      hide Concat;
      ended, timer := true, false;
      last := None;
      assert Concat(segments) + buffer + "" == Concat(segments) + buffer;
      if buffer != "" {
        last := Some(buffer);
        ConcatAfter(segments, buffer);
        segments, buffer := segments + [buffer], "";
      }
    }

    method Abort()
      requires Valid()
      modifies this`buffer, this`timer, this`ended, this`aborted
      ensures Valid() && ended && (old(ended) ==> unchanged(this))
    {
      if ended {
        return;
      }
      ended, timer, buffer, aborted := true, false, "", true;
    }
  }

  // ----- The worker -----

  datatype Worker = Ready | Asleep | Speaking | Done

  class SegmentQueue {
    var items: seq<string>
    var closed: bool
    var wakeup: bool
    var abort: bool
    var worker: Worker

    /** Every segment queued, every one attempted, and how many attempts failed. */
    ghost var pushed: seq<string>
    ghost var attempted: seq<string>
    ghost var failed: nat

    ghost predicate Valid()
      reads this
    {
      && attempted + items == pushed
      && "" !in pushed
      && (worker.Asleep? && (items != [] || closed) ==> wakeup)
      && (worker.Done? ==> abort || (closed && items == []))
      && failed <= |attempted| && (worker.Speaking? ==> failed < |attempted|)
    }

    constructor ()
      ensures Valid() && !closed && !abort && pushed == [] && attempted == [] && worker == Ready
    {
      items, closed, wakeup, abort, worker := [], false, false, false, Ready;
      pushed, attempted, failed := [], [], 0;
    }

    method Push(segment: string)
      requires Valid()
      modifies this`items, this`wakeup, this`pushed
      ensures Valid()
      ensures pushed == if old(closed) || segment == "" then old(pushed) else old(pushed) + [segment]
    {
      if closed || segment == "" {
        return;
      }
      items, wakeup, pushed := items + [segment], true, pushed + [segment];
    }

    method Close()
      requires Valid()
      modifies this`closed, this`wakeup
      ensures Valid() && closed
    {
      if !closed {
        closed, wakeup := true, true;
      }
    }

    method SetAbort()
      requires Valid()
      modifies this`abort
      ensures Valid() && abort
    {
      abort := true;
    }

    /** The worker's loop head up to its next await. */
    method Step()
      requires Valid() && worker.Ready?
      modifies this`worker, this`items, this`wakeup, this`attempted
      ensures Valid()
      ensures abort ==> worker.Done? && attempted == old(attempted)
      ensures !abort && old(items) != [] ==>
                worker.Speaking? && attempted == old(attempted) + [old(items)[0]] && items == old(items)[1..]
      ensures !abort && old(items) == [] ==>
                attempted == old(attempted) && items == [] && (if closed then worker.Done? else worker.Asleep?)
    {
      if abort {
        worker := Done;
      } else if items == [] {
        if closed {
          worker := Done;
        } else {
          wakeup, worker := false, Asleep;
        }
      } else {
        assert attempted + items == attempted + [items[0]] + items[1..];
        attempted, items, worker := attempted + [items[0]], items[1..], Speaking;
      }
    }

    method Wake()
      requires Valid() && worker.Asleep? && (wakeup || abort)
      modifies this`worker
      ensures Valid() && worker == if abort then Done else Ready
    {
      worker := if abort then Done else Ready;
    }

    /** Speaking a segment returned or raised; either way the worker goes on. */
    method Spoken(ok: bool)
      requires Valid() && worker.Speaking?
      modifies this`worker, this`failed
      ensures Valid() && worker.Ready? && attempted == old(attempted)
      ensures failed == old(failed) + if ok then 0 else 1
      ensures failed == old(failed) + if ok then 0 else 1
      ensures failed == old(failed) + if ok then 0 else 1
    {
      if !ok {
        failed := failed + 1;
      }
      worker := Ready;
    }
  }

  // ----- One turn -----

  datatype Response = Pending | Complete | Broken

  class AgentTurn {
    const blank: Blank
    const segmenter: IdleSegmenter
    const queue: SegmentQueue
    var accumulated: string
    var response: Response

    ghost predicate Valid()
      reads this, segmenter, queue
    {
      && segmenter.Valid() && queue.Valid()
      && (response != Broken ==> segmenter.taken == accumulated && !segmenter.aborted)
      && (response == Pending ==> !segmenter.ended && !queue.closed)
      && (response != Pending ==> segmenter.ended && queue.closed)
      && queue.pushed == StripAll(blank, segmenter.segments)
    }

    constructor (space: Blank, pauseMs: int)
      ensures Valid() && fresh(segmenter) && fresh(queue)
      ensures blank == space && response == Pending && accumulated == ""
      ensures segmenter.idleEnabled == (pauseMs > 0) && segmenter.segments == [] && segmenter.buffer == ""
    {
      blank, accumulated, response := space, "", Pending;
      segmenter := new IdleSegmenter(pauseMs);
      queue := new SegmentQueue();
    }

    method OnDelta(text: string)
      requires Valid()
      modifies this`accumulated, segmenter
      ensures Valid() && response == old(response)
      ensures accumulated == if response == Pending then old(accumulated) + text else old(accumulated)
      ensures segmenter.segments == old(segmenter.segments)
      ensures response == Pending ==> segmenter.buffer == old(segmenter.buffer) + text
    {
      if response != Pending {
        return;
      }
      accumulated := accumulated + text;
      segmenter.Push(text);
    }

    method OnPause()
      requires Valid() && segmenter.timer
      modifies segmenter, queue
      ensures Valid() && response == old(response) && accumulated == old(accumulated)
      ensures !segmenter.timer && segmenter.buffer == ""
      ensures segmenter.segments ==
                old(segmenter.segments) + if old(segmenter.buffer) == "" then [] else [old(segmenter.buffer)]
    {
      hide Strip, Concat;
      var segment := segmenter.Flush();
      if segment.Some? {
        Enqueue(segment.value);
      }
    }

    method Enqueue(segment: string)
      requires queue.Valid() && !queue.closed && segment != ""
      modifies queue`items, queue`wakeup, queue`pushed
      ensures queue.Valid() && queue.pushed == old(queue.pushed) + [Strip(blank, segment)]
    {
      var cleaned := Strip(blank, segment);
      if cleaned != "" {
        queue.Push(cleaned);
      }
    }

    method OnEnd()
      requires Valid()
      modifies this`response, segmenter, queue
      ensures Valid() && response == if old(response) == Pending then Complete else old(response)
      ensures accumulated == old(accumulated)
      ensures old(response) == Pending ==>
                segmenter.segments ==
                old(segmenter.segments) + if old(segmenter.buffer) == "" then [] else [old(segmenter.buffer)]
    {
      hide Strip, Concat;
      if response != Pending {
        return;
      }
      var last := segmenter.End();
      if last.Some? {
        Enqueue(last.value);
      }
      queue.Close();
      response := Complete;
    }

    /** The agent failed, the device aborted, or the wait ran out. */
    method OnFailure(aborted: bool)
      requires Valid()
      modifies this`response, segmenter, queue
      ensures Valid() && response == if old(response) == Pending then Broken else old(response)
      ensures queue.abort == (old(queue.abort) || aborted)
    {
      if aborted {
        queue.SetAbort();
      }
      if response != Pending {
        return;
      }
      segmenter.Abort();
      queue.Close();
      response := Broken;
    }

    /** A completed turn: its segments are the whole reply, and once the worker of
        an un-aborted turn is done it has spoken each of them, stripped, in order.
        No segment shows a tag; all of them together do exactly when a tag of the
        reply lies across a border of segments. */
    lemma WholeReplyIsSpoken()
      requires Valid() && Sane(blank)
      ensures response == Complete ==> Concat(segmenter.segments) == accumulated
      ensures response == Pending ==> Concat(segmenter.segments) + segmenter.buffer == accumulated
      ensures queue.attempted <= StripAll(blank, segmenter.segments)
      ensures queue.worker.Done? && !queue.abort ==> queue.attempted == StripAll(blank, segmenter.segments)
      ensures forall s :: s in queue.pushed ==> s != "" && !Tagged(s)
      ensures Tagged(Concat(queue.pushed)) <==> Straddles(segmenter.segments)
      ensures !segmenter.idleEnabled && response == Complete ==>
                queue.pushed == if accumulated == "" then [] else [Strip(blank, accumulated)]
    {
      hide Strip, Sane, Tagged, Straddles;
      var segments := segmenter.segments;
      ShownExactlyWhenCut(blank, segments);
      assert Concat(segments) + "" == Concat(segments);
      assert queue.attempted + [] == queue.attempted;
      forall s | s in queue.pushed
        ensures !Tagged(s)
      {
        var k :| 0 <= k < |queue.pushed| && queue.pushed[k] == s;
        NoTagRemains(blank, segments[k]);
      }
      if |segments| == 1 {
        ConcatAfter([], segments[0]);
        assert [] + [segments[0]] == segments;
        assert "" + segments[0] == segments[0];
        assert segments[0] in segments;
        assert queue.pushed == [Strip(blank, segments[0])];
      }
    }
  }

  /** A pause anywhere in the middle of a tag: the reply is the tag alone, and its two halves are
      spoken. */
  method PauseInsideATag(blank: Blank, j: nat) returns (turn: AgentTurn)
    requires Sane(blank) && 0 < j < |TAG|
    ensures turn.Valid() && turn.response == Complete && turn.accumulated == TAG
    ensures Tagged(Concat(turn.queue.pushed))
  {
    var front, back := TAG[..j], TAG[j..];
    TwoHalves(front, back);
    turn := CutByAPause(blank, front, back);
    turn.WholeReplyIsSpoken();
  }

  method CutByAPause(blank: Blank, front: string, back: string) returns (turn: AgentTurn)
    requires front != "" && back != ""
    ensures turn.Valid() && fresh(turn) && turn.response == Complete && turn.blank == blank
    ensures turn.accumulated == front + back && turn.segmenter.segments == [front, back]
  {
    hide Strip, StripAll, Concat;
    turn := new AgentTurn(blank, 250);
    turn.OnDelta(front);
    assert turn.accumulated == "" + front == front;
    assert turn.segmenter.buffer == "" + front == front;
    turn.OnPause();
    assert turn.segmenter.segments == [] + [front] == [front];
    turn.OnDelta(back);
    assert turn.segmenter.buffer == "" + back == back;
    turn.OnEnd();
    assert turn.segmenter.segments == [front] + [back] == [front, back];
  }

  lemma TwoHalves(front: string, back: string)
    requires front != "" && back != "" && front + back == TAG
    ensures Straddles([front, back])
  {
    var parts := [front, back];
    var one := parts[..1];
    assert one[..0] == [] && one == [front];
    assert Concat(one) == "" + front == front;
    assert Concat(parts) == Concat(one) + back == TAG;
    assert Crosses(parts, 0, 1);
  }
}
