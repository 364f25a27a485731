/** Bounded response prefill: audio is held until a lead has gathered or a timer
    runs out, and normal markers let it out in order. Every method is the code
    between two awaits. One task at a time holds the lock; `holder` says where it
    is suspended. Tasks that wait for the lock have no other state, except that an
    interruption has already moved the epoch on when it starts to wait. */
module Jitter {
  import opened Basics

  datatype Frame = Frame(size: nat, channels: int, rate: int)

  /** The four normal markers. */
  datatype Kind = ResponseStart | ResponseEnd | SpeechStopped | Ended

  datatype Item = Audio(frame: Frame) | Marker(kind: Kind) | Interruption | Cancel

  /** What the holder does after letting the detached frames out. */
  datatype Then = Release | ReleaseTimer(current: bool) | Send(kind: Kind)

  datatype Holder =
    | Free
    | Forwarding
    | Stopping(kind: Kind)
    | Flushing(rest: seq<Frame>, epoch: nat, after: Then)

  predicate Playable(f: Frame) { 0 < f.channels && 0 < f.rate && 0 < f.size }

  function Millis(f: Frame): (ms: real)
    requires Playable(f)
    ensures 0.0 < ms
  {
    (f.size * 1000) as real / (2 * f.channels * f.rate) as real
  }

  ghost predicate AllPlayable(frames: seq<Frame>) { forall f :: f in frames ==> Playable(f) }

  function Duration(frames: seq<Frame>): real
    requires AllPlayable(frames)
  {
    if frames == [] then 0.0 else Duration(frames[..|frames| - 1]) + Millis(frames[|frames| - 1])
  }

  function Audios(frames: seq<Frame>): (items: seq<Item>)
    ensures |items| == |frames|
    ensures forall k :: 0 <= k < |frames| ==> items[k] == Audio(frames[k])
  {
    seq(|frames|, k requires 0 <= k < |frames| => Audio(frames[k]))
  }

  lemma HoldOne(frames: seq<Frame>, f: Frame)
    requires AllPlayable(frames) && Playable(f)
    ensures AllPlayable(frames + [f])
    ensures Audios(frames + [f]) == Audios(frames) + [Audio(f)]
    ensures Duration(frames + [f]) == Duration(frames) + Millis(f)
  {}

  // ----- Serial numbers -----
  // Every audio frame or marker gets the next serial number when its task obtains
  // the lock; output and queue are sequences of serial numbers. Waiting tasks are
  // served first come first served by asyncio's lock, which makes this the order of
  // arrival.

  ghost predicate Rising(s: seq<nat>) { forall i, j :: 0 <= i < j < |s| ==> s[i] < s[j] }

  ghost predicate Within(s: seq<nat>, lo: nat, hi: nat) { forall i :: 0 <= i < |s| ==> lo <= s[i] < hi }

  ghost function ItemsAt(accepted: seq<Item>, s: seq<nat>): (items: seq<Item>)
    requires Within(s, 0, |accepted|)
    ensures |items| == |s|
    ensures forall k :: 0 <= k < |s| ==> items[k] == accepted[s[k]]
  {
    seq(|s|, k requires 0 <= k < |s| => accepted[s[k]])
  }

  /** Rising numbers that fill a range are that range, each once and in order. */
  lemma {:induction false} DenseIsAll(s: seq<nat>, lo: nat, hi: nat)
    requires Rising(s) && Within(s, lo, hi) && |s| == hi - lo
    ensures forall k :: 0 <= k < |s| ==> s[k] == lo + k
    decreases |s|
  {
    if s != [] {
      AtLeast(s, lo);
      var last := |s| - 1;
      assert s[last] == hi - 1;
      DenseIsAll(s[..last], lo, hi - 1);
    }
  }

  lemma {:induction false} AtLeast(s: seq<nat>, lo: nat)
    requires Rising(s) && forall i :: 0 <= i < |s| ==> lo <= s[i]
    ensures forall k :: 0 <= k < |s| ==> lo + k <= s[k]
    decreases |s|
  {
    if s != [] {
      var last := |s| - 1;
      AtLeast(s[..last], lo);
      assert last > 0 ==> s[last - 1] == s[..last][last - 1];
    }
  }

  ghost predicate Before(out: seq<nat>, queue: seq<nat>) {
    out != [] && queue != [] ==> out[|out| - 1] < queue[0]
  }

  /** The account of one buffer: `out` has left and `queue` is still to come, of the
      `n` serial numbers given. When settled, nothing from `base` on is missing. */
  ghost predicate InOrder(out: seq<nat>, queue: seq<nat>, n: nat, settled: bool, base: nat, outBase: nat) {
    && Rising(out) && Rising(queue) && Before(out, queue)
    && Within(out, 0, n) && Within(queue, 0, n)
    && base <= n && outBase <= |out|
    && (settled ==>
          && |out| - outBase + |queue| == n - base
          && Within(out[outBase..], base, n) && Within(queue, base, n))
  }

  lemma AcceptOne(out: seq<nat>, queue: seq<nat>, n: nat, settled: bool, base: nat, outBase: nat)
    requires InOrder(out, queue, n, settled, base, outBase)
    ensures InOrder(out, queue + [n], n + 1, settled, base, outBase)
  {
  }

  lemma PassOne(out: seq<nat>, queue: seq<nat>, n: nat, settled: bool, base: nat, outBase: nat)
    requires InOrder(out, queue, n, settled, base, outBase) && queue != []
    ensures InOrder(out + [queue[0]], queue[1..], n, settled, base, outBase)
  {}

  lemma LoseSome(out: seq<nat>, queue: seq<nat>, from: nat, to: nat, n: nat, settled: bool, base: nat, outBase: nat)
    requires InOrder(out, queue, n, settled, base, outBase) && from <= to <= |queue|
    ensures InOrder(out, queue[from..to], n, false, base, outBase)
  {}

  lemma Unsettled(out: seq<nat>, queue: seq<nat>, n: nat, settled: bool, base: nat, outBase: nat)
    requires InOrder(out, queue, n, settled, base, outBase)
    ensures InOrder(out, queue, n, false, base, outBase)
    ensures Within(queue, 0, n)
  {
  }

  lemma StartAfresh(out: seq<nat>, queue: seq<nat>, n: nat, settled: bool, base: nat, outBase: nat)
    requires InOrder(out, queue, n, settled, base, outBase)
    ensures InOrder(out, [], n, true, n, |out|)
  {
  }

  lemma ItemsAfter(accepted: seq<Item>, queue: seq<nat>, item: Item)
    requires Within(queue, 0, |accepted|)
    ensures Within(queue + [|accepted|], 0, |accepted| + 1)
    ensures ItemsAt(accepted + [item], queue + [|accepted|]) == ItemsAt(accepted, queue) + [item]
  {
  }

  lemma ItemsPart(accepted: seq<Item>, queue: seq<nat>, from: nat, to: nat)
    requires Within(queue, 0, |accepted|) && from <= to <= |queue|
    ensures Within(queue[from..to], 0, |accepted|)
    ensures ItemsAt(accepted, queue[from..to]) == ItemsAt(accepted, queue)[from..to]
  {
  }

  lemma QueueIsTail(accepted: seq<Item>, queue: seq<nat>)
    requires Within(queue, 0, |accepted|) && |queue| <= |accepted|
    requires forall k :: 0 <= k < |queue| ==> queue[k] == |accepted| - |queue| + k
    ensures ItemsAt(accepted, queue) == accepted[|accepted| - |queue|..]
  {
  }

  lemma OutRises(out: seq<nat>, queue: seq<nat>, n: nat, settled: bool, base: nat, outBase: nat)
    requires InOrder(out, queue, n, settled, base, outBase)
    ensures Rising(out) && Within(out, 0, n)
  {
  }

  /** All that settled means: from `outBase` on the output counts up from `base`,
      and the queue counts on to `n`. */
  lemma SettledIsAll(out: seq<nat>, queue: seq<nat>, n: nat, base: nat, outBase: nat)
    requires InOrder(out, queue, n, true, base, outBase)
    ensures outBase <= |out| && base + |out| - outBase == n - |queue|
    ensures forall i :: outBase <= i < |out| ==> out[i] == base + (i - outBase)
    ensures forall k :: 0 <= k < |queue| ==> queue[k] == n - |queue| + k
  {
    var recent := out[outBase..];
    var all := recent + queue;
    assert Rising(all);
    DenseIsAll(all, base, n);
    assert forall i :: outBase <= i < |out| ==> out[i] == recent[i - outBase];
    assert forall i :: 0 <= i < |recent| ==> recent[i] == all[i];
    assert forall k :: 0 <= k < |queue| ==> queue[k] == all[|recent| + k];
  }

  class OutputJitterBuffer {
    const lead: real
    var held: seq<Frame>
    var heldMs: real
    var priming: bool
    var epoch: nat
    var timer: Option<nat>
    var closed: bool
    var holder: Holder

    /** History: what obtained the lock, what has been pushed on, what is still to
        come; interruptions and clean-ups that have begun but not got the lock yet;
        and where the last of them that did left the two sequences. */
    ghost var accepted: seq<Item>
    ghost var forwarded: seq<nat>
    ghost var queue: seq<nat>
    ghost var pending: nat
    /** How often the timer has been cut off, by a marker, an interruption or a
        clean-up, and how often it had been when a frame was last held. */
    ghost var cuts: nat
    ghost var cutsWhenHeld: nat
    ghost var base: nat
    ghost var outBase: nat

    ghost predicate Ordered()
      reads this
    {
      InOrder(forwarded, queue, |accepted|, pending == 0, base, outBase)
    }

    ghost function Waiting(): (items: seq<Item>)
      requires Ordered()
      reads this
    {
      ItemsAt(accepted, queue)
    }

    ghost predicate Placed()
      requires Ordered()
      reads this
    {
      match holder
      case Free =>
        && Waiting() == Audios(held)
        && (!closed && held != [] ==>
              && (timer == Some(epoch) <==> cuts == cutsWhenHeld)
              && (pending == 0 ==> cuts == cutsWhenHeld))
      case Stopping(kind) =>
        Waiting() == Audios(held) + [Marker(kind)] && timer == None && cutsWhenHeld < cuts
      case Flushing(rest, e, after) =>
        && held == []
        && Waiting() == Audios(rest) + (if after.Send? then [Marker(after.kind)] else [])
        && (after.Send? ==> timer == None)
        && (pending == 0 && rest != [] ==> e == epoch && !closed)
      case Forwarding => held == [] && queue == []
    }

    ghost predicate Valid()
      reads this
    {
      && 0.0 < lead
      && AllPlayable(held) && heldMs == Duration(held) && heldMs < lead
      && (held != [] ==> priming)
      && (timer.Some? ==> timer.value == epoch)
      && (closed && pending == 0 ==> held == [])
      && cutsWhenHeld <= cuts
      && Ordered()
      && Placed()
    }

    constructor (leadMs: real)
      requires 0.0 < leadMs <= 500.0
      ensures Valid() && holder == Free && !closed && pending == 0
      ensures accepted == [] && forwarded == [] && lead == leadMs
      ensures priming && held == [] && heldMs == 0.0
    {
      lead := leadMs;
      held, heldMs, priming, epoch, timer, closed, holder := [], 0.0, true, 0, None, false, Free;
      accepted, forwarded, queue, pending, base, outBase := [], [], [], 0, 0, 0;
      cuts, cutsWhenHeld := 0, 0;
    }

    /** A non-empty audio frame obtains the lock. */
    method AudioEnters(frame: Frame)
      requires Valid() && holder == Free && Playable(frame)
      modifies this
      ensures Valid() && pending == old(pending)
      ensures old(closed) ==> unchanged(this)
      ensures !old(closed) ==> accepted == old(accepted) + [Audio(frame)]
      ensures !old(closed) && !old(priming) ==> forwarded == old(forwarded) + [|old(accepted)|]
      ensures !old(closed) && old(priming) && old(heldMs) + Millis(frame) < lead ==>
                && holder == Free && forwarded == old(forwarded) && held == old(held) + [frame]
                && timer == Some(epoch) && cutsWhenHeld == cuts && !closed
      ensures !old(closed) && old(priming) && lead <= old(heldMs) + Millis(frame) ==>
                && holder == Flushing((old(held) + [frame])[1..], epoch, Release)
                && |forwarded| == |old(forwarded)| + 1 && !priming && held == [] && timer == None && !closed
      ensures epoch == old(epoch) && cuts == old(cuts)
    {
      hide InOrder, Millis, ItemsAt;
      if closed {
        return;
      }
      Accept(Audio(frame));
      if priming {
        Gather(frame);
      } else {
        PushOne();
        holder := Forwarding;
      }
    }

    /** Still priming: hold the frame, and let everything out once it is enough. */
    method Gather(frame: Frame)
      requires 0.0 < lead && Ordered() && !closed && priming && holder == Free && Playable(frame)
      requires AllPlayable(held) && heldMs == Duration(held)
      requires Waiting() == Audios(held) + [Audio(frame)]
      requires (timer.Some? ==> timer.value == epoch) && cutsWhenHeld <= cuts
      modifies this`held, this`heldMs, this`priming, this`holder, this`timer, this`epoch, this`closed, this`forwarded,
               this`queue, this`cutsWhenHeld
      ensures Valid()
      ensures if old(heldMs) + Millis(frame) < lead
              then
                && holder == Free && forwarded == old(forwarded) && held == old(held) + [frame]
                && timer == Some(epoch) && cutsWhenHeld == cuts && !closed
              else
                && holder == Flushing((old(held) + [frame])[1..], epoch, Release)
                && |forwarded| == |old(forwarded)| + 1 && !priming && held == [] && timer == None && !closed
      ensures epoch == old(epoch)
    {
      hide InOrder, Millis, ItemsAt, Audios, Duration, AllPlayable;
      var frames := held + [frame];
      HoldOne(held, frame);
      if heldMs + Millis(frame) >= lead {
        timer := None;
        Detach(frames, epoch, Release);
      } else {
        held, heldMs := frames, heldMs + Millis(frame);
        if timer == None {
          timer := Some(epoch);
        }
        cutsWhenHeld := cuts;
      }
    }

    /** Ghost account: a task obtained the lock with this item. */
    ghost method Accept(item: Item)
      requires Ordered()
      modifies this`accepted, this`queue
      ensures Ordered() && accepted == old(accepted) + [item] && queue == old(queue) + [|old(accepted)|]
      ensures Waiting() == old(Waiting()) + [item]
    {
      hide Rising, Within, Before, ItemsAt;
      AcceptOne(forwarded, queue, |accepted|, pending == 0, base, outBase);
      ItemsAfter(accepted, queue, item);
      queue, accepted := queue + [|accepted|], accepted + [item];
    }

    /** Ghost account of one push: the first of the queue joins the output. */
    ghost method PushOne()
      requires Ordered() && queue != []
      modifies this`forwarded, this`queue
      ensures Ordered() && forwarded == old(forwarded) + [old(queue)[0]] && queue == old(queue)[1..]
      ensures Waiting() == old(Waiting())[1..]
    {
      hide Rising, Within, Before, ItemsAt;
      PassOne(forwarded, queue, |accepted|, pending == 0, base, outBase);
      ItemsPart(accepted, queue, 1, |queue|);
      forwarded, queue := forwarded + [queue[0]], queue[1..];
    }

    /** Ghost account of dropped frames: the first `n` of the queue are gone. */
    ghost method Drop(n: nat)
      requires Ordered() && n <= |queue| && (pending == 0 ==> n == 0)
      modifies this`queue
      ensures Ordered() && queue == old(queue)[n..]
      ensures Waiting() == old(Waiting())[n..]
    {
      hide Rising, Within, Before, ItemsAt;
      LoseSome(forwarded, queue, n, |queue|, |accepted|, pending == 0, base, outBase);
      ItemsPart(accepted, queue, n, |queue|);
      assert n == 0 ==> queue[n..|queue|] == queue;
      queue := queue[n..|queue|];
      assert queue == old(queue)[n..];
    }

    /** Ghost account of an interruption's turn: whatever was queued is gone. */
    ghost method Restart()
      requires Ordered() && pending > 0
      modifies this`queue, this`pending, this`base, this`outBase
      ensures Ordered() && queue == [] && pending == old(pending) - 1 && base == |accepted| && outBase == |forwarded|
    {
      StartAfresh(forwarded, queue, |accepted|, pending == 0, base, outBase);
      base, outBase, pending, queue := |accepted|, |forwarded|, pending - 1, [];
    }

    /** Ghost account of an interruption's push. */
    ghost method Announce(item: Item)
      requires Ordered() && pending > 0
      modifies this`accepted, this`forwarded, this`queue, this`pending, this`base, this`outBase
      ensures Ordered() && queue == [] && pending == old(pending) - 1
      ensures base == |old(accepted)| && outBase == |old(forwarded)|
      ensures accepted == old(accepted) + [item] && forwarded == old(forwarded) + [|old(accepted)|]
    {
      hide InOrder, ItemsAt;
      Restart();
      Accept(item);
      PushOne();
    }

    /** Held frames are detached at once, then pushed one by one. */
    method Detach(frames: seq<Frame>, e: nat, after: Then)
      requires 0.0 < lead && cutsWhenHeld <= cuts && Ordered() && e == epoch
          && (pending == 0 && frames != [] ==> !closed)
      requires Waiting() == Audios(frames) + (if after.Send? then [Marker(after.kind)] else [])
      requires (timer.Some? ==> timer.value == epoch) && (after.Send? ==> timer == None)
      modifies this`held, this`heldMs, this`priming, this`holder, this`timer, this`epoch, this`closed,
          this`forwarded, this`queue
      ensures Valid()
      ensures held == []
      ensures frames != [] && !old(closed) ==>
                && holder == Flushing(frames[1..], e, after) && |forwarded| == |old(forwarded)| + 1
                && !priming && closed == old(closed) && epoch == old(epoch) && timer == old(timer)
      ensures frames == [] || old(closed) ==>
                && (if after.Send? then holder == Forwarding && |forwarded| == |old(forwarded)| + 1
                    else holder == Free && forwarded == old(forwarded))
                && closed == (old(closed) || (after.Send? && after.kind.Ended?))
                && priming == (after.Send? && after.kind.ResponseStart?)
                && epoch == old(epoch) + (if after.Send? && after.kind.ResponseStart? then 1 else 0)
                && timer == if after == ReleaseTimer(true) then None else old(timer)
      ensures after.Send? ==> holder.Flushing? || holder == Forwarding
    {
      hide InOrder, ItemsAt, Millis;
      held, heldMs, priming := [], 0.0, false;
      Next(frames, e, after);
    }

    /** Push the next detached frame, or stop if the buffer closed or moved on. */
    method Next(rest: seq<Frame>, e: nat, after: Then)
      requires 0.0 < lead && cutsWhenHeld <= cuts && Ordered() && held == [] && heldMs == 0.0
      requires Waiting() == Audios(rest) + (if after.Send? then [Marker(after.kind)] else [])
      requires (timer.Some? ==> timer.value == epoch) && (after.Send? ==> timer == None)
      requires pending == 0 && rest != [] ==> e == epoch && !closed
      modifies this`priming, this`holder, this`timer, this`epoch, this`closed, this`forwarded, this`queue
      ensures Valid()
      ensures old(rest != [] && !closed && e == epoch) ==>
                && holder == Flushing(rest[1..], e, after) && |forwarded| == |old(forwarded)| + 1
                && priming == old(priming) && closed == old(closed) && epoch == old(epoch) && timer == old(timer)
      ensures !old(rest != [] && !closed && e == epoch) ==>
                && (if after.Send? then holder == Forwarding && |forwarded| == |old(forwarded)| + 1
                    else holder == Free && forwarded == old(forwarded))
                && closed == (old(closed) || (after.Send? && after.kind.Ended?))
                && priming == (old(priming) || (after.Send? && after.kind.ResponseStart?))
                && epoch == old(epoch) + (if after.Send? && after.kind.ResponseStart? then 1 else 0)
                && timer == if after == ReleaseTimer(true) then None else old(timer)
      ensures after.Send? ==> holder.Flushing? || holder == Forwarding
    {
      hide InOrder, ItemsAt, Millis;
      ghost var was := Waiting();
      if rest != [] && !closed && e == epoch {
        PushOne();
        assert Audios(rest)[1..] == Audios(rest[1..]);
        assert was[1..] == Audios(rest)[1..] + (if after.Send? then [Marker(after.kind)] else []);
        holder := Flushing(rest[1..], e, after);
      } else {
        Drop(|rest|);
        Finish(after);
      }
    }

    method Finish(after: Then)
      requires 0.0 < lead && cutsWhenHeld <= cuts && Ordered() && held == [] && heldMs == 0.0
      requires Waiting() == (if after.Send? then [Marker(after.kind)] else [])
      requires (timer.Some? ==> timer.value == epoch) && (after.Send? ==> timer == None)
      modifies this`priming, this`holder, this`timer, this`epoch, this`closed, this`forwarded, this`queue
      ensures Valid()
      ensures after.Send? ==> holder == Forwarding && |forwarded| == |old(forwarded)| + 1
      ensures closed == (old(closed) || (after.Send? && after.kind.Ended?))
      ensures priming == (old(priming) || (after.Send? && after.kind.ResponseStart?))
      ensures epoch == old(epoch) + if after.Send? && after.kind.ResponseStart? then 1 else 0
      ensures timer == if after == ReleaseTimer(true) then None else old(timer)
      ensures !after.Send? ==> holder == Free && forwarded == old(forwarded)
    {
      hide InOrder, ItemsAt, Millis;
      match after
      case Release => holder := Free;
      case ReleaseTimer(current) =>
        if current {
          timer := None;
        }
        holder := Free;
      case Send(kind) =>
        if kind.ResponseStart? {
          epoch, priming := epoch + 1, true;
        }
        if kind.Ended? {
          closed := true;
        }
        PushOne();
        holder := Forwarding;
    }

    /** The prefill timer obtains the lock. `current` says it is still the buffer's
        own timer; a cancelled one that fires all the same is checked by its epoch. */
    method TimerEnters(e: nat, current: bool)
      requires Valid() && holder == Free && (current ==> timer == Some(e))
      modifies this
      ensures Valid() && accepted == old(accepted) && pending == old(pending)
      ensures !old(closed) && e == old(epoch) && old(held) != [] ==>
                && holder == Flushing(old(held)[1..], e, ReleaseTimer(current)) && |forwarded| == |old(forwarded)| + 1
                && held == [] && !priming
      ensures !holder.Flushing? ==> timer == if current then None else old(timer)
      ensures closed == old(closed) && epoch == old(epoch)
      ensures old(closed) || e != old(epoch) ==> forwarded == old(forwarded) && held == old(held)
    {
      hide InOrder, ItemsAt, Millis;
      if !closed && e == epoch {
        assert Waiting() == Audios(held) + [];
        Detach(held, e, ReleaseTimer(current));
      } else if current {
        timer := None;
      }
    }

    /** A normal marker obtains the lock and ends the timer before it flushes. */
    method MarkerEnters(kind: Kind)
      requires Valid() && holder == Free
      modifies this
      ensures Valid() && holder == Stopping(kind) && pending == old(pending) && cuts == old(cuts) + 1
      ensures timer == None && epoch == old(epoch) && closed == old(closed) && priming == old(priming)
      ensures accepted == old(accepted) + [Marker(kind)] && forwarded == old(forwarded) && held == old(held)
    {
      hide InOrder, ItemsAt, Millis;
      Accept(Marker(kind));
      timer, holder, cuts := None, Stopping(kind), cuts + 1;
    }

    method MarkerProceeds()
      requires Valid() && holder.Stopping?
      modifies this
      ensures Valid() && accepted == old(accepted) && pending == old(pending) && held == []
      ensures |forwarded| == |old(forwarded)| + 1
      ensures var kind := old(holder).kind;
        if old(held != [] && !closed) then holder == Flushing(old(held)[1..], epoch, Send(kind)) && !priming
        else holder == Forwarding && priming == kind.ResponseStart? && closed == (old(closed) || kind.Ended?)
    {
      hide InOrder, ItemsAt, Millis;
      Detach(held, epoch, Send(holder.kind));
    }

    /** The awaited push returned. */
    method Pushed()
      requires Valid() && (holder.Flushing? || holder == Forwarding)
      modifies this
      ensures Valid() && accepted == old(accepted) && pending == old(pending)
      ensures held == old(held)
      ensures old(holder) == Forwarding ==>
                && holder == Free && forwarded == old(forwarded) && timer == old(timer)
                && priming == old(priming) && epoch == old(epoch) && closed == old(closed)
      ensures old(holder.Flushing? && holder.rest != [] && !closed && holder.epoch == epoch) ==>
                && holder == old(Flushing(holder.rest[1..], holder.epoch, holder.after))
                && |forwarded| == |old(forwarded)| + 1 && timer == old(timer)
                && priming == old(priming) && epoch == old(epoch) && closed == old(closed)
      ensures old(holder.Flushing? && !(holder.rest != [] && !closed && holder.epoch == epoch)) ==>
                var after := old(holder).after;
                && (if after.Send? then holder == Forwarding && |forwarded| == |old(forwarded)| + 1
                    else holder == Free && forwarded == old(forwarded))
                && closed == (old(closed) || (after.Send? && after.kind.Ended?))
                && priming == (old(priming) || (after.Send? && after.kind.ResponseStart?))
                && epoch == old(epoch) + (if after.Send? && after.kind.ResponseStart? then 1 else 0)
                && timer == if after == ReleaseTimer(true) then None else old(timer)
    {
      hide InOrder, ItemsAt, Millis;
      if holder == Forwarding {
        holder := Free;
      } else {
        Next(holder.rest, holder.epoch, holder.after);
      }
    }

    /** An interruption or cancel starts: the epoch moves on and the timer goes,
        before it waits for the lock. */
    method InterruptArrives()
      requires Valid()
      modifies this`epoch, this`timer, this`pending, this`cuts
      ensures Valid() && pending == old(pending) + 1 && epoch == old(epoch) + 1 && timer == None
      ensures cuts == old(cuts) + 1
    {
      hide InOrder, ItemsAt, Millis;
      Unsettled(forwarded, queue, |accepted|, pending == 0, base, outBase);
      epoch, timer, pending, cuts := epoch + 1, None, pending + 1, cuts + 1;
    }

    method CleanupArrives()
      requires Valid()
      modifies this`epoch, this`timer, this`pending, this`closed, this`cuts
      ensures Valid() && pending == old(pending) + 1 && closed && cuts == old(cuts) + 1
      ensures epoch == old(epoch) + 1 && timer == None
    {
      hide InOrder, ItemsAt, Millis;
      Unsettled(forwarded, queue, |accepted|, pending == 0, base, outBase);
      closed, epoch, timer, pending, cuts := true, epoch + 1, None, pending + 1, cuts + 1;
    }

    /** An interruption ends whoever holds the lock at its await: the prefill
        timer, or the processor's own task. What it had detached is lost. */
    method Abandoned()
      requires Valid() && pending > 0 && holder != Free
      modifies this`holder, this`queue, this`timer
      ensures Valid() && holder == Free && held == old(held) && forwarded == old(forwarded)
      ensures timer == if old(holder.Flushing? && holder.after == ReleaseTimer(true)) then None else old(timer)
    {
      hide InOrder, ItemsAt, Millis;
      if holder.Stopping? {
        Unsettled(forwarded, queue, |accepted|, pending == 0, base, outBase);
        LoseSome(forwarded, queue, 0, |held|, |accepted|, pending == 0, base, outBase);
        ItemsPart(accepted, queue, 0, |held|);
        queue := queue[0..|held|];
      } else {
        Drop(|queue|);
        if holder.Flushing? && holder.after == ReleaseTimer(true) {
          timer := None;
        }
      }
      holder := Free;
    }

    /** The interruption obtains the lock: what is held goes, and it is pushed on. */
    method InterruptEnters(item: Item)
      requires Valid() && holder == Free && pending > 0 && (item.Interruption? || item.Cancel?)
      modifies this
      ensures Valid() && pending == old(pending) - 1 && holder == Forwarding
      ensures held == [] && priming && closed == (old(closed) || item.Cancel?)
      ensures epoch == old(epoch) && timer == old(timer)
      ensures accepted == old(accepted) + [item] && forwarded == old(forwarded) + [|old(accepted)|]
      ensures base == |old(accepted)| && outBase == |old(forwarded)|
    {
      hide InOrder, ItemsAt, Millis, Audios, Playable;
      held, heldMs, priming := [], 0.0, true;
      if item.Cancel? {
        closed := true;
      }
      Announce(item);
      holder := Forwarding;
    }

    method CleanupEnters()
      requires Valid() && holder == Free && pending > 0 && closed
      modifies this
      ensures Valid() && pending == old(pending) - 1 && holder == Free && held == [] && forwarded == old(forwarded)
    {
      hide InOrder, ItemsAt, Millis;
      held, heldMs := [], 0.0;
      Restart();
    }

    /** While no interruption is on its way, everything accepted since the last one
        has left or is held, in order and once; and the output never goes back, so
        nothing accepted before an interruption follows it. */
    lemma NothingLostOrReordered()
      requires Valid()
      ensures Rising(forwarded) && Within(forwarded, 0, |accepted|)
      ensures pending == 0 && holder == Free ==>
                && (forall i :: outBase <= i < |forwarded| ==> forwarded[i] == base + (i - outBase))
                && accepted[base + |forwarded| - outBase..] == Audios(held)
    {
      hide InOrder, ItemsAt, Rising;
      OutRises(forwarded, queue, |accepted|, pending == 0, base, outBase);
      if pending == 0 && holder == Free {
        SettledIsAll(forwarded, queue, |accepted|, base, outBase);
        Unsettled(forwarded, queue, |accepted|, true, base, outBase);
        QueueIsTail(accepted, queue);
      }
    }

    /** At rest in an open buffer, less than the lead is held, and a timer of this
        epoch will let it go exactly when nothing has cut a timer off since the last
        frame was held; an interruption on its way is the only thing that can have. */
    lemma HeldAudioHasATimer()
      requires Valid() && holder == Free && !closed && held != []
      ensures 0.0 < Duration(held) < lead && priming
      ensures timer == Some(epoch) <==> cuts == cutsWhenHeld
      ensures timer == Some(epoch) || timer == None
      ensures pending == 0 ==> timer == Some(epoch)
    {
      DurationIsPositive(held);
    }
  }

  lemma {:induction false} DurationIsPositive(frames: seq<Frame>)
    requires AllPlayable(frames)
    ensures frames != [] ==> 0.0 < Duration(frames)
  {
    if frames != [] {
      DurationIsPositive(frames[..|frames| - 1]);
    }
  }

  lemma TwentyMillis()
    ensures Millis(Frame(1920, 1, 48000)) == 20.0
  {
  }

  /** Both sides happen: an interruption on its way leaves held audio without a timer, and the
      next frame held before it gets the lock arms one again. */
  method InterruptionLeavesAGap() returns (b: OutputJitterBuffer)
    ensures b.Valid() && b.holder == Free && !b.closed && b.held != [] && b.timer == None && b.pending == 1
  {
    hide Millis;
    TwentyMillis();
    b := new OutputJitterBuffer(120.0);
    b.AudioEnters(Frame(1920, 1, 48000));
    b.InterruptArrives();
  }

  method NextFrameClosesTheGap() returns (b: OutputJitterBuffer)
    ensures b.Valid() && b.holder == Free && !b.closed && b.held != [] && b.timer == Some(b.epoch) && b.pending == 1
  {
    hide Millis, InOrder, ItemsAt, Audios, Duration;
    TwentyMillis();
    b := new OutputJitterBuffer(120.0);
    b.InterruptArrives();
    b.AudioEnters(Frame(1920, 1, 48000));
  }
}
