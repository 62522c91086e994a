/** The loops of the current bot, over plain values: the waits of `wait_event` and `ask`, the
    probe of `check_apis_access`, the scan of `update_music_api` and the loop of
    `register_commands`. Each is proved to compute its specification function. */
module BotLoops {
  import opened Wrappers
  import opened Commands
  import opened Events
  import opened Dialog
  import opened Election
  import opened BotRules

  /** The loop of `wait_event` over the server's queue. */
  method WaitLoop(q0: Queue, t: nat, ignore: seq<string>) returns (e: Option<Event>, q: Queue)
    ensures Received(e, q) == AcceptNext(q0, t, ignore)
  {
    q := q0;
    e := None;
    while true
      invariant AcceptNext(q, t, ignore) == AcceptNext(q0, t, ignore)
      decreases |q.pending|
    {
      var x := Receive(q, t);
      q := x.queue;
      if x.event.None? {
        break;
      }
      if Accepted(x.event.value, ignore) {
        e := x.event;
        break;
      }
    }
  }

  /** The waiting loop of `ask`: one-unit waits until the asker answers or `deadline`. */
  method AskWaitLoop(q0: Queue, asker: string, deadline: int, ignore: seq<string>) returns (event: Option<Event>, q: Queue)
    ensures Received(event, q) == AskLoop(q0, asker, deadline, ignore, None)
  {
    q := q0;
    event := None;
    while q.clock < deadline
      invariant AskLoop(q, asker, deadline, ignore, event) == AskLoop(q0, asker, deadline, ignore, None)
      decreases |q.pending|, deadline - q.clock
    {
      var e;
      e, q := WaitLoop(q, 1, ignore);
      if e.Some? {
        event := e;
        if e.value.uid == Some(asker) {
          break;
        }
      }
    }
  }

  /** The loop of `check_apis_access`: each entry, in the table's order, gets its probe's
      answer. */
  method ProbeLoop(order: seq<string>, infos: map<string, ApiInfo>, available: string -> bool) returns (m: map<string, ApiInfo>)
    requires forall id | id in infos :: id in order
    ensures m == Probed(infos, available)
    ensures m.Keys == infos.Keys
  {
    m := infos;
    var i := 0;
    while i < |order|
      invariant 0 <= i <= |order|
      invariant m.Keys == infos.Keys
      invariant forall id | id in m ::
        m[id] == if id in order[..i] then infos[id].(accessibility := available(id)) else infos[id]
    {
      var id := order[i];
      if id in m {
        m := m[id := m[id].(accessibility := available(id))];
      }
      assert order[..i + 1] == order[..i] + [id];
      i := i + 1;
    }
    assert order[..i] == order;
  }

  /** The scan of `update_music_api`: sort the entries by priority, highest first and
      stably, and take the first available one. */
  method ElectLoop(items: seq<ApiInfo>) returns (pick: Option<ApiInfo>)
    ensures pick == Best(items)
  {
    var sorted := SortDesc(items);
    pick := None;
    var i := 0;
    while i < |sorted|
      invariant 0 <= i <= |sorted|
      invariant FirstAccessible(sorted[i..]) == FirstAccessible(sorted)
    {
      FirstAccessibleStep(sorted, i);
      if sorted[i].accessibility {
        pick := Some(sorted[i]);
        break;
      }
      i := i + 1;
    }
    if pick.None? {
      assert sorted[i..] == [];
    }
    SortedElectionIsBest(items);
  }

  /** `update_music_api`'s choice, by the scan above over the table's entries. */
  method Elect(order: seq<string>, infos: map<string, ApiInfo>) returns (id: Option<string>)
    requires forall i | 0 <= i < |order| :: order[i] in infos
    requires forall id | id in infos :: infos[id].id == id
    ensures id == ElectedId(order, infos)
  {
    var pick := ElectLoop(Items(order, infos));
    id := if pick.None? then None else Some(pick.value.id);
  }

  /** `FirstAccessible` of a suffix, one entry at a time. */
  lemma FirstAccessibleStep(s: seq<ApiInfo>, i: nat)
    requires i < |s|
    ensures FirstAccessible(s[i..]) == if s[i].accessibility then Some(s[i]) else FirstAccessible(s[i + 1..])
  {
    assert s[i..][0] == s[i];
    assert s[i..][1..] == s[i + 1..];
  }

  /** The loop of `register_commands`: the commands built, in order, and the refusal that
      stopped it. */
  method RegisterLoop(items: seq<CommandInput>) returns (added: seq<Command>, failure: Option<Refusal>)
    ensures Conversion(added, failure) == Converted(items)
  {
    added := [];
    failure := None;
    var i := 0;
    while i < |items|
      invariant 0 <= i <= |items|
      invariant Converted(items) == Conversion(added + Converted(items[i..]).cmds, Converted(items[i..]).failure)
    {
      ConvertedStep(items, i);
      var rest := Converted(items[i + 1..]);
      match items[i] {
        case Other =>
        case Ready(c) =>
          assert (added + [c]) + rest.cmds == added + ([c] + rest.cmds);
          added := added + [c];
        case Described(d) =>
          match FromDict(d) {
            case Refused(why) =>
              failure := Some(why);
              return;
            case Built(c) =>
              assert (added + [c]) + rest.cmds == added + ([c] + rest.cmds);
              added := added + [c];
          }
      }
      i := i + 1;
    }
    assert items[i..] == [];
  }

  /** `Converted` of a suffix, one item at a time. */
  lemma ConvertedStep(items: seq<CommandInput>, i: nat)
    requires i < |items|
    ensures var rest := Converted(items[i + 1..]);
      Converted(items[i..]) == match items[i]
        case Other => rest
        case Ready(c) => Conversion([c] + rest.cmds, rest.failure)
        case Described(d) =>
          match FromDict(d)
          case Refused(why) => Conversion([], Some(why))
          case Built(c) => Conversion([c] + rest.cmds, rest.failure)
  {
    assert items[i..][1..] == items[i + 1..];
  }
}
