/** The question-and-answer exchange of the current bot (`ask`): after asking, it keeps
    waiting in one-unit steps until the asker answers or the time is up, remembering the
    last event it was handed from anyone. */
module Dialog {
  import opened Wrappers
  import opened Events

  /** The waiting loop of `ask`, from queue `q`, until time `deadline`; `last` is the last
      event handed over so far. It hands back the asker's event, or when time runs out the
      last event from anyone (`None` if there was none): an event from someone else comes
      back only once the time is up. */
  function AskLoop(q: Queue, asker: string, deadline: int, ignore: seq<string>, last: Option<Event>): (r: Received)
    ensures r.queue.clock >= q.clock
    ensures r.event.Some? && r.event.value.uid != Some(asker) ==> r.queue.clock >= deadline
    decreases |q.pending|, deadline - q.clock
  {
    if q.clock >= deadline then Received(last, q)
    else
      var x := AcceptNext(q, 1, ignore);
      match x.event
      case None => AskLoop(x.queue, asker, deadline, ignore, last)
      case Some(e) =>
        if e.uid == Some(asker) then x
        else AskLoop(x.queue, asker, deadline, ignore, Some(e))
  }

  /** Once an event has been handed over, the loop hands back an event. */
  lemma {:induction false} AskLoopKeepsAnEvent(q: Queue, asker: string, deadline: int, ignore: seq<string>, last: Option<Event>)
    requires last.Some?
    ensures AskLoop(q, asker, deadline, ignore, last).event.Some?
    decreases |q.pending|, deadline - q.clock
  {
    if q.clock < deadline {
      var x := AcceptNext(q, 1, ignore);
      match x.event
      case None => AskLoopKeepsAnEvent(x.queue, asker, deadline, ignore, last);
      case Some(e) =>
        if e.uid != Some(asker) {
          AskLoopKeepsAnEvent(x.queue, asker, deadline, ignore, Some(e));
        }
    }
  }

  /** What the loop hands back is the event it started with or an accepted event from the
      queue. */
  lemma {:induction false} AskLoopHandsOverReceived(q: Queue, asker: string, deadline: int, ignore: seq<string>, last: Option<Event>)
    ensures var r := AskLoop(q, asker, deadline, ignore, last);
      r.event.Some? ==> r.event == last || HandedOver(q.pending, r.event.value, ignore)
    decreases |q.pending|, deadline - q.clock
  {
    if q.clock < deadline {
      var x := AcceptNext(q, 1, ignore);
      AcceptNextConsumesPrefix(q, 1, ignore);
      var k := |q.pending| - |x.queue.pending|;
      match x.event
      case None =>
        AskLoopHandsOverReceived(x.queue, asker, deadline, ignore, last);
        HandedOverFromSuffix(q.pending, k);
      case Some(e) =>
        assert q.pending[k - 1].event == e;
        if e.uid != Some(asker) {
          AskLoopHandsOverReceived(x.queue, asker, deadline, ignore, Some(e));
          HandedOverFromSuffix(q.pending, k);
        }
    }
  }

  /** `e` is an accepted event of the queue. */
  predicate HandedOver(pending: seq<Arrival>, e: Event, ignore: seq<string>) {
    Accepted(e, ignore) && exists i | 0 <= i < |pending| :: pending[i].event == e
  }

  lemma HandedOverFromSuffix(pending: seq<Arrival>, k: nat)
    requires k <= |pending|
    ensures forall e, ignore | HandedOver(pending[k..], e, ignore) :: HandedOver(pending, e, ignore)
  {
    forall e, ignore | HandedOver(pending[k..], e, ignore) ensures HandedOver(pending, e, ignore) {
      var j :| 0 <= j < |pending| - k && pending[k..][j].event == e;
      assert pending[k + j].event == e;
    }
  }

  /** `ask` comes back empty-handed only when no accepted event arrived by the deadline: if
      one did, the loop hands back an event. Arrivals are in time order, and the loop starts
      before the deadline or with nothing already due. */
  lemma {:induction false} AskLoopFindsEarlyEvent(q: Queue, asker: string, deadline: int, ignore: seq<string>, last: Option<Event>)
    requires InTimeOrder(q.pending)
    requires q.clock < deadline || q.pending == [] || q.pending[0].at > q.clock
    requires last.Some? || exists i | 0 <= i < |q.pending| :: q.pending[i].at <= deadline && Accepted(q.pending[i].event, ignore)
    ensures AskLoop(q, asker, deadline, ignore, last).event.Some?
    decreases |q.pending|, deadline - q.clock
  {
    if last.Some? {
      AskLoopKeepsAnEvent(q, asker, deadline, ignore, last);
    } else if q.clock >= deadline {
      assert false;
    } else {
      var x := AcceptNext(q, 1, ignore);
      AcceptNextConsumesPrefix(q, 1, ignore);
      var k := |q.pending| - |x.queue.pending|;
      match x.event
      case None =>
        var i :| 0 <= i < |q.pending| && q.pending[i].at <= deadline && Accepted(q.pending[i].event, ignore);
        assert i >= k;
        assert x.queue.pending[i - k] == q.pending[i];
        AskLoopFindsEarlyEvent(x.queue, asker, deadline, ignore, last);
      case Some(e) =>
        if e.uid != Some(asker) {
          AskLoopKeepsAnEvent(x.queue, asker, deadline, ignore, Some(e));
        }
    }
  }

  /** The later of two times. */
  function Later(a: int, b: int): int {
    if a < b then b else a
  }

  /** `wait_event` with a one-unit timeout never skips an accepted event: it hands over that
      event or an earlier one, or times out before that event arrives; meanwhile time moves
      no later than that event's arrival (or now, if it is already due). */
  lemma {:induction false} AcceptNextReachesAccepted(q: Queue, ignore: seq<string>, j: nat)
    requires InTimeOrder(q.pending) && j < |q.pending| && Accepted(q.pending[j].event, ignore)
    ensures var r := AcceptNext(q, 1, ignore);
      var n := |q.pending| - |r.queue.pending|;
      && (r.event.Some? ==> n <= j + 1 && r.queue.clock <= Later(q.clock, q.pending[j].at))
      && (r.event.None? ==> n <= j && r.queue.clock < q.pending[j].at)
    decreases |q.pending|
  {
    var x := Receive(q, 1);
    if x.event.Some? && !Accepted(x.event.value, ignore) {
      assert j > 0;
      assert x.queue.pending[j - 1] == q.pending[j];
      AcceptNextReachesAccepted(x.queue, ignore, j - 1);
    }
  }

  /** Started before the deadline, with no event arriving exactly at it, `wait_event` with
      a one-unit timeout hands over (or drops) only events that arrived before the deadline,
      and does not carry time past it. */
  lemma {:induction false} AcceptNextBeforeDeadline(q: Queue, deadline: int, ignore: seq<string>)
    requires q.clock < deadline
    requires forall i | 0 <= i < |q.pending| :: q.pending[i].at != deadline
    ensures var r := AcceptNext(q, 1, ignore);
      && r.queue.clock <= deadline
      && (r.event.Some? ==> r.queue.clock < deadline)
      && forall i | 0 <= i < |q.pending| - |r.queue.pending| :: q.pending[i].at < deadline
    decreases |q.pending|
  {
    var x := Receive(q, 1);
    if x.event.Some? && !Accepted(x.event.value, ignore) {
      assert forall i | 0 <= i < |x.queue.pending| :: x.queue.pending[i] == q.pending[i + 1];
      AcceptNextBeforeDeadline(x.queue, deadline, ignore);
    }
  }

  /** None of the first `j` arrivals comes from the asker. */
  predicate NoEarlierReply(pending: seq<Arrival>, asker: string, j: nat)
    requires j <= |pending|
  {
    forall i | 0 <= i < j :: pending[i].event.uid != Some(asker)
  }

  lemma ShiftKeeps(p: seq<Arrival>, n: nat, asker: string, j: nat)
    requires n <= j < |p|
    ensures NoEarlierReply(p, asker, j) ==> NoEarlierReply(p[n..], asker, j - n)
    ensures p[n..][j - n] == p[j]
  {
    assert forall i | 0 <= i < j - n :: p[n..][i] == p[n + i];
  }

  /** `ask` returns the asker's reply: when an event from the asker (not ignored) arrives
      before the deadline, the loop hands back the first such event, whatever else arrives
      in the meantime. */
  lemma {:induction false} AskLoopReturnsAskersReply(q: Queue, asker: string, deadline: int, ignore: seq<string>, last: Option<Event>, j: nat)
    requires InTimeOrder(q.pending) && q.clock < deadline && asker !in ignore
    requires j < |q.pending| && q.pending[j].event.uid == Some(asker) && q.pending[j].at < deadline
    requires NoEarlierReply(q.pending, asker, j)
    ensures AskLoop(q, asker, deadline, ignore, last).event == Some(q.pending[j].event)
    decreases |q.pending|, deadline - q.clock, 1
  {
    var x := AcceptNext(q, 1, ignore);
    AcceptNextConsumesPrefix(q, 1, ignore);
    AcceptNextReachesAccepted(q, ignore, j);
    var n := |q.pending| - |x.queue.pending|;
    if x.event.None? || n - 1 < j {
      AskLoopPassesTo(q, asker, deadline, ignore, last, j, x, n);
    }
  }

  /** One step of the loop before the asker's reply: a timeout, or another accepted event
      handed over; the search for the reply goes on from what is left. */
  lemma {:induction false} AskLoopPassesTo(q: Queue, asker: string, deadline: int, ignore: seq<string>, last: Option<Event>, j: nat, x: Received, n: nat)
    requires InTimeOrder(q.pending) && q.clock < deadline && asker !in ignore
    requires j < |q.pending| && q.pending[j].event.uid == Some(asker) && q.pending[j].at < deadline
    requires NoEarlierReply(q.pending, asker, j)
    requires x == AcceptNext(q, 1, ignore) && n == |q.pending| - |x.queue.pending|
    requires x.queue.pending == q.pending[n..]
    requires x.event.Some? ==> x.event.value == q.pending[n - 1].event && n - 1 < j && x.queue.clock <= Later(q.clock, q.pending[j].at)
    requires x.event.None? ==> n <= j && x.queue.clock < q.pending[j].at
    ensures AskLoop(q, asker, deadline, ignore, last).event == Some(q.pending[j].event)
    decreases |q.pending|, deadline - q.clock, 0
  {
    SuffixKeeps(q.pending, n, asker, deadline, ignore);
    ShiftKeeps(q.pending, n, asker, j);
    var next := if x.event.Some? then x.event else last;
    assert x.event.Some? ==> x.event.value.uid != Some(asker);
    assert AskLoop(q, asker, deadline, ignore, last) == AskLoop(x.queue, asker, deadline, ignore, next);
    AskLoopReturnsAskersReply(x.queue, asker, deadline, ignore, next, j - n);
  }

  /** Reference for `ask` without a reply: the last accepted event among those that arrive
      before the deadline, or `last` when there is none. */
  function LastAcceptedBefore(pending: seq<Arrival>, deadline: int, ignore: seq<string>, last: Option<Event>): Option<Event>
    decreases |pending|
  {
    if pending == [] || pending[0].at >= deadline then last
    else LastAcceptedBefore(pending[1..], deadline, ignore,
      if Accepted(pending[0].event, ignore) then Some(pending[0].event) else last)
  }

  /** Events that arrive before the deadline and are not accepted do not change the
      reference. */
  lemma {:induction false} LastAcceptedSkips(pending: seq<Arrival>, deadline: int, ignore: seq<string>, last: Option<Event>, m: nat)
    requires m <= |pending|
    requires forall i | 0 <= i < m :: pending[i].at < deadline && !Accepted(pending[i].event, ignore)
    ensures LastAcceptedBefore(pending, deadline, ignore, last) == LastAcceptedBefore(pending[m..], deadline, ignore, last)
  {
    if m > 0 {
      assert forall i | 0 <= i < m - 1 :: pending[1..][i] == pending[i + 1];
      LastAcceptedSkips(pending[1..], deadline, ignore, last, m - 1);
      assert pending[1..][m - 1..] == pending[m..];
    }
  }

  /** No event arrives exactly at the deadline. */
  predicate NoneArrivesAt(pending: seq<Arrival>, deadline: int) {
    forall i | 0 <= i < |pending| :: pending[i].at != deadline
  }

  /** No accepted event from the asker arrives before the deadline. */
  predicate NoReplyBefore(pending: seq<Arrival>, asker: string, deadline: int, ignore: seq<string>) {
    forall i | 0 <= i < |pending| && pending[i].at < deadline && Accepted(pending[i].event, ignore) ::
      pending[i].event.uid != Some(asker)
  }

  /** What holds of every arrival holds of every arrival of a later part of the queue. */
  lemma SuffixKeeps(p: seq<Arrival>, n: nat, asker: string, deadline: int, ignore: seq<string>)
    requires n <= |p|
    ensures InTimeOrder(p) ==> InTimeOrder(p[n..])
    ensures NoneArrivesAt(p, deadline) ==> NoneArrivesAt(p[n..], deadline)
    ensures NoReplyBefore(p, asker, deadline, ignore) ==> NoReplyBefore(p[n..], asker, deadline, ignore)
  {
    assert forall i | 0 <= i < |p| - n :: p[n..][i] == p[n + i];
  }

  /** When the asker does not answer before the deadline, `ask` falls back to the last
      accepted event that arrived before the deadline (or `last`). Arrivals are in time
      order and none arrives exactly at the deadline. */
  lemma {:induction false} AskLoopWithoutReplyKeepsLastEvent(q: Queue, asker: string, deadline: int, ignore: seq<string>, last: Option<Event>)
    requires InTimeOrder(q.pending) && NoneArrivesAt(q.pending, deadline)
    requires NoReplyBefore(q.pending, asker, deadline, ignore)
    requires q.clock < deadline || q.pending == [] || q.pending[0].at > deadline
    ensures AskLoop(q, asker, deadline, ignore, last).event == LastAcceptedBefore(q.pending, deadline, ignore, last)
    decreases |q.pending|, deadline - q.clock
  {
    if q.clock < deadline {
      var x := AcceptNext(q, 1, ignore);
      AcceptNextConsumesPrefix(q, 1, ignore);
      AcceptNextBeforeDeadline(q, deadline, ignore);
      var n := |q.pending| - |x.queue.pending|;
      SuffixKeeps(q.pending, n, asker, deadline, ignore);
      match x.event
      case None =>
        LastAcceptedSkips(q.pending, deadline, ignore, last, n);
        AskLoopWithoutReplyKeepsLastEvent(x.queue, asker, deadline, ignore, last);
      case Some(e) =>
        LastAcceptedSkips(q.pending, deadline, ignore, last, n - 1);
        assert q.pending[n - 1..][1..] == q.pending[n..];
        AskLoopWithoutReplyKeepsLastEvent(x.queue, asker, deadline, ignore, Some(e));
    }
  }
}
