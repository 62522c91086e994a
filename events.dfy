/** The chat server as the bots see it: text events that arrive at integer times, and a
    `wait_for_event(timeout)` that hands over the next event if it arrives within `timeout`
    time units and otherwise raises a timeout. The clock is the same one the bots read as
    `time.time()`. */
module Events {
  import opened Wrappers

  /** A text event. `uid` is `None` when the event carries no `invokeruid`. */
  datatype Event = Event(uid: Option<string>, name: string, targetmode: int, msg: string)

  datatype Arrival = Arrival(at: int, event: Event)

  /** Events not yet handed over, in arrival order, and the current time. */
  datatype Queue = Queue(pending: seq<Arrival>, clock: int)

  /** What a wait hands over (`None` for a timeout) and the queue afterwards. */
  datatype Received = Received(event: Option<Event>, queue: Queue)

  /** A message the bot sends: the target mode, the target id and the text. */
  datatype Outgoing = Outgoing(targetmode: int, target: int, text: string)

  /** Arrivals are listed in time order. */
  predicate InTimeOrder(pending: seq<Arrival>) {
    forall i, j | 0 <= i < j < |pending| :: pending[i].at <= pending[j].at
  }

  /** `wait_for_event(timeout)`: the first pending event if it arrives within `timeout` of now
      (time moves to its arrival if that is later), otherwise a timeout after which `timeout`
      units have passed. */
  function Receive(q: Queue, timeout: nat): (r: Received)
    ensures r.queue.clock >= q.clock
    ensures r.event.Some? <==> q.pending != [] && q.pending[0].at <= q.clock + timeout
    ensures r.event.Some? ==>
      && r.event.value == q.pending[0].event
      && r.queue.pending == q.pending[1..]
      && r.queue.clock <= q.clock + timeout
    ensures r.event.None? ==> r.queue == Queue(q.pending, q.clock + timeout)
  {
    if q.pending != [] && q.pending[0].at <= q.clock + timeout then
      var a := q.pending[0];
      Received(Some(a.event), Queue(q.pending[1..], if a.at > q.clock then a.at else q.clock))
    else
      Received(None, Queue(q.pending, q.clock + timeout))
  }

  /** An event `wait_event` hands on: it names its sender and the sender is not ignored. */
  predicate Accepted(e: Event, ignore: seq<string>) {
    e.uid.Some? && e.uid.value !in ignore
  }

  /** `wait_event(timeout)`: waits again and again, dropping events without a sender or from
      an ignored sender, until an accepted event arrives or one wait times out. */
  function AcceptNext(q: Queue, timeout: nat, ignore: seq<string>): (r: Received)
    ensures r.queue.clock >= q.clock
    ensures r.event.None? ==> r.queue.clock >= q.clock + timeout
    ensures |r.queue.pending| <= |q.pending|
    ensures r.event.Some? ==> |r.queue.pending| < |q.pending|
    decreases |q.pending|
  {
    var x := Receive(q, timeout);
    match x.event
    case None => x
    case Some(e) =>
      if Accepted(e, ignore) then x
      else AcceptNext(x.queue, timeout, ignore)
  }

  /** What `wait_event` consumes is a prefix of the queue: every event it drops is one it was
      not allowed to hand on, it hands on the first one it is, and after a timeout nothing
      left is due. */
  lemma {:induction false} AcceptNextConsumesPrefix(q: Queue, timeout: nat, ignore: seq<string>)
    ensures var r := AcceptNext(q, timeout, ignore);
      && r.queue.pending == q.pending[|q.pending| - |r.queue.pending|..]
      && (r.event.None? ==> r.queue.pending == [] || r.queue.pending[0].at > r.queue.clock)
      && (r.event.Some? ==>
        && r.event.value == q.pending[|q.pending| - |r.queue.pending| - 1].event
        && Accepted(r.event.value, ignore))
      && var dropped := |q.pending| - |r.queue.pending| - (if r.event.Some? then 1 else 0);
        forall i | 0 <= i < dropped :: !Accepted(q.pending[i].event, ignore)
    decreases |q.pending|
  {
    var x := Receive(q, timeout);
    if x.event.Some? && !Accepted(x.event.value, ignore) {
      var r := AcceptNext(x.queue, timeout, ignore);
      AcceptNextConsumesPrefix(x.queue, timeout, ignore);
      assert q.pending[1..][|x.queue.pending| - |r.queue.pending|..] == q.pending[|q.pending| - |r.queue.pending|..];
      forall i | 1 <= i < |q.pending| ensures q.pending[i] == q.pending[1..][i - 1] { }
    }
  }
}
