/** Browser transcript snapshots: a bounded queue that replaces its own tail, one
    worker that sends in order, and the browser's rule for folding what arrives. */
module Transcript {
  import opened Basics

  datatype Role = User | Assistant

  datatype Message = Message(role: Role, turn: int, text: string, final: bool)

  const LIMIT := 64
  const TEXT_LIMIT := 6000

  function Suffix(text: string): (s: string)
    ensures |s| == (if |text| <= TEXT_LIMIT then |text| else TEXT_LIMIT)
    ensures s == text[|text| - |s|..]
  {
    if |text| <= TEXT_LIMIT then text else text[|text| - TEXT_LIMIT..]
  }

  // ----- The browser's side -----

  datatype Turn = Turn(id: int, role: Role, text: string, final: bool)

  function IndexOf(turns: seq<Turn>, id: int): (k: nat)
    ensures k <= |turns| && (k < |turns| ==> turns[k].id == id)
    ensures forall j :: 0 <= j < k ==> turns[j].id != id
  {
    if turns == [] || turns[0].id == id then 0 else 1 + IndexOf(turns[1..], id)
  }

  /** A final turn never changes; a known turn takes the new text and finality and
      keeps its first role; an unknown one is appended. */
  function Update(turns: seq<Turn>, m: Message): seq<Turn> {
    var k := IndexOf(turns, m.turn);
    if k == |turns| then turns + [Turn(m.turn, m.role, Suffix(m.text), m.final)]
    else if turns[k].final then turns
    else turns[k := turns[k].(text := Suffix(m.text), final := m.final)]
  }

  function Shown(log: seq<Message>): seq<Turn> {
    if log == [] then [] else Update(Shown(log[..|log| - 1]), log[|log| - 1])
  }

  function Finals(log: seq<Message>): seq<Message> {
    if log == [] then []
    else Finals(log[..|log| - 1]) + if log[|log| - 1].final then [log[|log| - 1]] else []
  }

  /** One turn id is one speaker's. */
  ghost predicate OneSpeakerPerTurn(log: seq<Message>) {
    forall i, j :: 0 <= i < |log| && 0 <= j < |log| && log[i].turn == log[j].turn ==> log[i].role == log[j].role
  }

  lemma ShownAfter(log: seq<Message>, m: Message)
    ensures Shown(log + [m]) == Update(Shown(log), m)
    ensures Finals(log + [m]) == Finals(log) + if m.final then [m] else []
  {}

  // ----- What the browser shows, without folding -----

  /** The message is the first of its turn. */
  ghost predicate Opens(log: seq<Message>, i: nat) {
    i < |log| && forall j :: 0 <= j < i ==> log[j].turn != log[i].turn
  }

  /** The message is the last of its turn that counts: no final one of the turn comes before it,
      and it is final or the last of its turn. */
  ghost predicate Stands(log: seq<Message>, i: nat) {
    && i < |log|
    && (forall j :: 0 <= j < i && log[j].turn == log[i].turn ==> !log[j].final)
    && (log[i].final || forall j :: i < j < |log| ==> log[j].turn != log[i].turn)
  }

  /** The turn is shown in the role of its first message, with the text of the one that stands. */
  ghost predicate ShownAs(log: seq<Message>, t: Turn, first: nat, last: nat) {
    && Opens(log, first) && Stands(log, last) && log[first].turn == t.id == log[last].turn
    && t.role == log[first].role && t.text == Suffix(log[last].text) && t.final == log[last].final
  }

  /** The shown turns are those of the log, each once, in the order in which they open. */
  ghost predicate ShowsAll(log: seq<Message>, turns: seq<Turn>, firsts: seq<nat>, lasts: seq<nat>) {
    && |firsts| == |turns| == |lasts|
    && (forall k :: 0 <= k < |turns| ==> ShownAs(log, turns[k], firsts[k], lasts[k]))
    && (forall j, k :: 0 <= j < k < |turns| ==> firsts[j] < firsts[k])
    && (forall i :: 0 <= i < |log| ==> exists k :: 0 <= k < |turns| && turns[k].id == log[i].turn)
  }

  lemma ShownAsGrows(log: seq<Message>, m: Message, t: Turn, first: nat, last: nat)
    requires ShownAs(log, t, first, last) && (t.id != m.turn || t.final)
    ensures ShownAs(log + [m], t, first, last)
  {}

  lemma ShownAsMoves(log: seq<Message>, m: Message, t: Turn, first: nat, last: nat)
    requires ShownAs(log, t, first, last) && t.id == m.turn && !t.final
    ensures ShownAs(log + [m], t.(text := Suffix(m.text), final := m.final), first, |log|)
  {
    assert forall j :: last < j < |log| ==> log[j].turn != m.turn;
  }

  lemma ShownAsNew(log: seq<Message>, m: Message)
    requires forall i :: 0 <= i < |log| ==> log[i].turn != m.turn
    ensures ShownAs(log + [m], Turn(m.turn, m.role, Suffix(m.text), m.final), |log|, |log|)
  {}

  lemma FoldStep(log: seq<Message>, m: Message, turns: seq<Turn>, firsts: seq<nat>, lasts: seq<nat>)
      returns (firsts': seq<nat>, lasts': seq<nat>)
    requires ShowsAll(log, turns, firsts, lasts)
    ensures ShowsAll(log + [m], Update(turns, m), firsts', lasts')
  {
    hide ShownAs, Suffix;
    var k, after := IndexOf(turns, m.turn), Update(turns, m);
    if k == |turns| {
      firsts', lasts' := firsts + [|log|], lasts + [|log|];
      ShownAsNew(log, m);
    } else if turns[k].final {
      firsts', lasts' := firsts, lasts;
    } else {
      firsts', lasts' := firsts, lasts[k := |log|];
      ShownAsMoves(log, m, turns[k], firsts[k], lasts[k]);
    }
    forall j | 0 <= j < |turns| && (turns[j].id != m.turn || turns[j].final)
      ensures ShownAs(log + [m], turns[j], firsts[j], lasts[j])
    {
      ShownAsGrows(log, m, turns[j], firsts[j], lasts[j]);
    }
    IdsDiffer(log, turns, firsts, lasts);
    FirstsInLog(log, turns, firsts, lasts);
    forall i | 0 <= i < |log + [m]| ensures exists j :: 0 <= j < |after| && after[j].id == (log + [m])[i].turn {
      if i < |log| {
        var j :| 0 <= j < |turns| && turns[j].id == log[i].turn;
        assert after[j].id == log[i].turn;
      } else {
        assert after[k].id == m.turn;
      }
    }
  }

  lemma IdsDiffer(log: seq<Message>, turns: seq<Turn>, firsts: seq<nat>, lasts: seq<nat>)
    requires ShowsAll(log, turns, firsts, lasts)
    ensures forall j, k :: 0 <= j < k < |turns| ==> turns[j].id != turns[k].id
  {
    hide Suffix;
    forall j, k | 0 <= j < k < |turns| ensures turns[j].id != turns[k].id {
      assert ShownAs(log, turns[j], firsts[j], lasts[j]) && ShownAs(log, turns[k], firsts[k], lasts[k]);
    }
  }

  lemma FirstsInLog(log: seq<Message>, turns: seq<Turn>, firsts: seq<nat>, lasts: seq<nat>)
    requires ShowsAll(log, turns, firsts, lasts)
    ensures forall k :: 0 <= k < |turns| ==> firsts[k] < |log|
  {
    forall k | 0 <= k < |turns| ensures firsts[k] < |log| {
      assert ShownAs(log, turns[k], firsts[k], lasts[k]);
    }
  }

  lemma NothingShown()
    ensures ShowsAll([], Shown([]), [], [])
  {}

  /** The browser's folded list shows every turn once, in the order of first messages, in the
      role of the first and with the text and finality of its last message up to a final one. */
  lemma {:induction false} ShownMeans(log: seq<Message>) returns (firsts: seq<nat>, lasts: seq<nat>)
    ensures ShowsAll(log, Shown(log), firsts, lasts)
    decreases |log|
  {
    hide ShowsAll, Update, Shown;
    if log == [] {
      NothingShown();
      firsts, lasts := [], [];
    } else {
      var n := |log| - 1;
      firsts, lasts := ShownMeans(log[..n]);
      firsts, lasts := FoldStep(log[..n], log[n], Shown(log[..n]), firsts, lasts);
      ShownAfter(log[..n], log[n]);
      assert log[..n] + [log[n]] == log;
    }
  }

  lemma IndexIsStable(turns: seq<Turn>, k: nat, t: Turn, id: int)
    requires k < |turns| && t.id == turns[k].id
    ensures IndexOf(turns[k := t], id) == IndexOf(turns, id)
  {
    var u := turns[k := t];
    var i, j := IndexOf(turns, id), IndexOf(u, id);
    assert i < |turns| ==> u[i].id == id;
    assert j < |turns| ==> turns[j].id == id;
  }

  lemma {:induction false} IndexAtEnd(turns: seq<Turn>, t: Turn)
    requires IndexOf(turns, t.id) == |turns|
    ensures IndexOf(turns + [t], t.id) == |turns|
  {
    var all := turns + [t];
    assert all[|turns|] == t;
    assert forall j :: 0 <= j < |turns| ==> all[j] == turns[j];
  }

  lemma KnownTurn(turns: seq<Turn>, m: Message, later: Message)
    requires m.turn == later.turn && !m.final && IndexOf(turns, m.turn) < |turns|
    ensures Update(Update(turns, m), later) == Update(turns, later)
  {
    hide IndexOf, Suffix;
    var k := IndexOf(turns, m.turn);
    if !turns[k].final {
      var t := turns[k].(text := Suffix(m.text), final := false);
      IndexIsStable(turns, k, t, m.turn);
      SetTwice(turns, k, t, t.(text := Suffix(later.text), final := later.final));
    }
  }

  lemma SetTwice(turns: seq<Turn>, k: nat, a: Turn, b: Turn)
    requires k < |turns|
    ensures turns[k := a][k := b] == turns[k := b]
  {
  }

  lemma NewTurn(turns: seq<Turn>, m: Message, later: Message)
    requires m.turn == later.turn && !m.final && IndexOf(turns, m.turn) == |turns|
    ensures Update(Update(turns, m), later) == Update(turns, later) <==> m.role == later.role
  {
    hide IndexOf, Suffix;
    var k, t := |turns|, Turn(m.turn, m.role, Suffix(m.text), false);
    IndexAtEnd(turns, t);
    var one, two := Update(turns, later), Update(turns + [t], later);
    assert one[k].role == later.role && two[k].role == m.role;
    assert two == turns + [t.(text := Suffix(later.text), final := later.final)];
  }

  /** Replacing a non-final snapshot by a later one of its turn is invisible
      exactly when the turn is already shown or both have one speaker. */
  lemma CoalescingIsInvisible(turns: seq<Turn>, m: Message, later: Message)
    requires m.turn == later.turn && !m.final
    ensures Update(Update(turns, m), later) == Update(turns, later) <==>
            IndexOf(turns, m.turn) < |turns| || m.role == later.role
  {
    hide IndexOf, Update;
    if IndexOf(turns, m.turn) < |turns| {
      KnownTurn(turns, m, later);
    } else {
      NewTurn(turns, m, later);
    }
  }

  // ----- The relay -----

  datatype Worker = Off | Starting | Sending(message: Message)

  class TranscriptRelay {
    var pending: seq<Message>
    var worker: Worker
    var closed: bool
    var sent: nat
    var coalesced: nat
    var failures: nat

    /** History: every message taken, every message delivered, and whether queued
        messages were given up by a failure or a close. */
    ghost var accepted: seq<Message>
    ghost var delivered: seq<Message>
    ghost var gaveUp: bool

    ghost function Log(): seq<Message>
      reads this
    {
      delivered + (if worker.Sending? then [worker.message] else []) + pending
    }

    ghost predicate Valid()
      reads this
    {
      && |pending| <= LIMIT
      && sent == |delivered|
      && failures <= 1
      && (gaveUp ==> closed && pending == [])
      && (!gaveUp ==>
            && failures == 0
            && |accepted| == |Log()| + coalesced
            && Finals(Log()) == Finals(accepted)
            && (OneSpeakerPerTurn(accepted) ==> Shown(Log()) == Shown(accepted))
            && (forall m :: m in pending ==> m in accepted)
            && (pending != [] ==> worker != Off))
    }

    constructor ()
      ensures Valid() && !closed && !gaveUp && accepted == [] && pending == []
    {
      pending, worker, closed, sent, coalesced, failures := [], Off, false, 0, 0, 0;
      accepted, delivered, gaveUp := [], [], false;
    }

    predicate Replaces(m: Message)
      reads this
    {
      pending != [] && pending[|pending| - 1].turn == m.turn && !pending[|pending| - 1].final
    }

    method Enqueue(role: Role, text: string, turn: int, final: bool)
      requires Valid()
      modifies this
      ensures Valid()
      ensures old(closed) ==> unchanged(this)
      ensures var m := Message(role, turn, Suffix(text), final);
              !old(closed) ==>
                if old(Replaces(m)) then
                  && !closed && accepted == old(accepted) + [m] && coalesced == old(coalesced) + 1
                  && pending == old(pending)[|old(pending)| - 1 := m]
                else if |old(pending)| < LIMIT then
                  && !closed && accepted == old(accepted) + [m] && coalesced == old(coalesced)
                  && pending == old(pending) + [m]
                else
                  && closed && gaveUp && failures == 1 && accepted == old(accepted)
    {
      if closed {
        return;
      }
      var message := Message(role, turn, Suffix(text), final);
      if Replaces(message) {
        ReplaceTail(message);
      } else if |pending| < LIMIT {
        Append(message);
      } else {
        Fail();
        return;
      }
      if worker.Off? {
        worker := Starting;
      }
    }

    method ReplaceTail(m: Message)
      requires Valid() && !closed && !gaveUp && Replaces(m)
      modifies this`pending, this`coalesced, this`accepted
      ensures Valid()
      ensures accepted == old(accepted) + [m] && coalesced == old(coalesced) + 1
      ensures pending == old(pending)[|old(pending)| - 1 := m]
    {
      hide Update, Shown, Finals;
      var last := |pending| - 1;
      ghost var tail, rest := pending[last], Log()[..|Log()| - 1];
      assert Log() == rest + [tail];
      ShownAfter(rest, tail);
      ShownAfter(rest, m);
      ShownAfter(accepted, m);
      CoalescingIsInvisible(Shown(rest), tail, m);
      if OneSpeakerPerTurn(accepted + [m]) {
        SpeakersAgree(accepted, m, tail);
      }
      pending, coalesced, accepted := pending[last := m], coalesced + 1, accepted + [m];
      assert Log() == rest + [m];
    }

    method Append(m: Message)
      requires Valid() && !closed && !gaveUp && |pending| < LIMIT
      modifies this`pending, this`accepted, this`worker
      ensures Valid()
      ensures accepted == old(accepted) + [m] && pending == old(pending) + [m]
    {
      hide Update, Shown, Finals;
      ghost var log := Log();
      ShownAfter(log, m);
      ShownAfter(accepted, m);
      if OneSpeakerPerTurn(accepted + [m]) {
        SpeakersAgree(accepted, m, m);
      }
      pending, accepted := pending + [m], accepted + [m];
      if worker.Off? {
        worker := Starting;
      }
      assert Log() == log + [m];
    }

    /** Reported once; what is queued is given up. */
    method Fail()
      requires Valid()
      modifies this`closed, this`failures, this`pending, this`gaveUp
      ensures Valid() && closed
      ensures if old(closed) then unchanged(this) else gaveUp && failures == 1 && pending == []
    {
      if !closed {
        closed, failures, pending, gaveUp := true, failures + 1, [], true;
      }
    }

    /** The worker's loop head: take the next message, or stop. */
    method Take()
      requires Valid() && worker.Starting?
      modifies this`worker, this`pending
      ensures Valid()
      ensures if old(pending) == [] then worker.Off? && pending == []
              else worker == Sending(old(pending)[0]) && pending == old(pending)[1..]
    {
      if pending == [] {
        worker := Off;
      } else {
        ghost var log := Log();
        worker, pending := Sending(pending[0]), pending[1..];
        assert Log() == log;
      }
    }

    /** The awaited send returned, was refused, raised or timed out. */
    method Returned(ok: bool)
      requires Valid() && worker.Sending?
      modifies this
      ensures Valid() && accepted == old(accepted)
      ensures if ok then delivered == old(delivered) + [old(worker).message] && closed == old(closed)
              else closed && delivered == old(delivered) && worker.Off? && pending == []
      ensures failures == if ok || old(closed) then old(failures) else 1
      ensures ok && old(pending) != [] ==> worker == Sending(old(pending)[0]) && pending == old(pending)[1..]
    {
      if ok {
        ghost var log := Log();
        sent, delivered, worker := sent + 1, delivered + [worker.message], Starting;
        assert Log() == log;
        Take();
      } else {
        Fail();
        worker := Off;
        gaveUp, pending := true, [];
      }
    }

    /** Closing refuses new messages; a draining close lets the worker go on for a
        while, and either way the rest is dropped in the end. */
    method CloseBegins()
      requires Valid()
      modifies this`closed
      ensures Valid() && closed
    {
      closed := true;
    }

    method CloseEnds()
      requires Valid() && closed
      modifies this`worker, this`pending, this`gaveUp
      ensures Valid() && worker.Off? && pending == [] && delivered == old(delivered)
    {
      worker, pending, gaveUp := Off, [], true;
    }

    /** What the interleavings come to, until a failure or the end of a close. */
    lemma CoalescedButComplete()
      requires Valid() && !gaveUp
      ensures |pending| <= LIMIT
      ensures |accepted| == sent + (if worker.Sending? then 1 else 0) + |pending| + coalesced
      ensures Finals(Log()) == Finals(accepted)
      ensures OneSpeakerPerTurn(accepted) ==> Shown(Log()) == Shown(accepted)
      ensures worker.Off? ==> Log() == delivered
    {
    }
  }

  lemma SpeakersAgree(log: seq<Message>, m: Message, tail: Message)
    requires OneSpeakerPerTurn(log + [m])
    ensures OneSpeakerPerTurn(log)
    ensures tail in log && tail.turn == m.turn ==> tail.role == m.role
  {
    var all := log + [m];
    assert forall i :: 0 <= i < |log| ==> all[i] == log[i];
    assert all[|log|] == m;
  }

  /** The speaker proviso cannot be dropped: two speakers under one turn id. */
  lemma OneTurnTwoSpeakers()
    ensures var a, b := Message(User, 1, "", false), Message(Assistant, 1, "", false);
            Shown([a, b]) != Shown([b])
  {
    var a, b := Message(User, 1, "", false), Message(Assistant, 1, "", false);
    assert [a, b][..1] == [a] && [a][..0] == [] && [b][..0] == [];
    var t := Turn(1, User, "", false);
    assert Shown([a]) == [t];
    assert Shown([a, b])[0].role == User;
  }
}
