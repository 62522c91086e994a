/** The first bot (`AudioBot`): the same command search over its own alias table, a chat
    gate, a `listen` loop whose inactivity timer counts turns rather than time, the player
    description kept in step with the playing link, single-wait questions, the unique name
    of a saved playlist, and the paged download of a playlist's songs. */
module LegacyBot {
  import opened Wrappers
  import opened PyStr
  import opened Commands
  import opened Router
  import opened Events
  import opened BotRules
  import opened TS3BotModel

  /** `confirm`'s hint, with its leading space. */
  const LegacyConfirmSuffix := " [是/否]"
  /** The page size of `get_list_songs_info`. */
  const PageSize := 20

  // ---------------------------------------------------------------------------
  // Waiting for an event

  /** How a wait ends: an event from a sender that is not ignored, the timeout the server
      raises, or the `KeyError` of an event without an `invokeruid`. */
  datatype WaitOutcome = Got(e: Event) | TimedOut | NoSender

  datatype Waited = Waited(outcome: WaitOutcome, queue: Queue)

  /** `wait_event(timeout)`: waits again after each event from an ignored sender. */
  function LegacyAccept(q: Queue, t: nat, ignore: seq<string>): (r: Waited)
    ensures r.queue.clock >= q.clock
    ensures |r.queue.pending| <= |q.pending|
    ensures r.outcome.Got? ==> Accepted(r.outcome.e, ignore)
    ensures r.outcome.TimedOut? ==> r.queue.clock >= q.clock + t
    decreases |q.pending|
  {
    var x := Receive(q, t);
    match x.event
    case None => Waited(TimedOut, x.queue)
    case Some(e) =>
      if e.uid.None? then Waited(NoSender, x.queue)
      else if e.uid.value !in ignore then Waited(Got(e), x.queue)
      else LegacyAccept(x.queue, t, ignore)
  }

  /** While every event names its sender, the first bot's wait hands over the same event as
      the current bot's, after the same waits; only an event without a sender tells them
      apart (the current bot drops it, the first one raises). */
  lemma {:induction false} LegacyAcceptAgrees(q: Queue, t: nat, ignore: seq<string>)
    requires forall i | 0 <= i < |q.pending| :: q.pending[i].event.uid.Some?
    ensures var l := LegacyAccept(q, t, ignore);
      var c := AcceptNext(q, t, ignore);
      && !l.outcome.NoSender?
      && l.queue == c.queue
      && (l.outcome.Got? <==> c.event.Some?)
      && (l.outcome.Got? ==> c.event.value == l.outcome.e)
    decreases |q.pending|
  {
    var x := Receive(q, t);
    if x.event.Some? && !Accepted(x.event.value, ignore) {
      forall i | 0 <= i < |x.queue.pending| ensures x.queue.pending[i].event.uid.Some? {
        assert x.queue.pending[i] == q.pending[i + 1];
      }
      LegacyAcceptAgrees(x.queue, t, ignore);
    }
  }

  /** The loop of `wait_event`. */
  method LegacyWaitLoop(q0: Queue, t: nat, ignore: seq<string>) returns (w: Waited)
    ensures w == LegacyAccept(q0, t, ignore)
  {
    var q := q0;
    while true
      invariant LegacyAccept(q, t, ignore) == LegacyAccept(q0, t, ignore)
      decreases |q.pending|
    {
      var x := Receive(q, t);
      q := x.queue;
      match x.event
      case None =>
        return Waited(TimedOut, q);
      case Some(e) =>
        if e.uid.None? {
          return Waited(NoSender, q);
        }
        if e.uid.value !in ignore {
          return Waited(Got(e), q);
        }
    }
  }

  // ---------------------------------------------------------------------------
  // The name of a saved playlist

  /** The `k`-th name `cmd_save_current_list` tries: the name itself, then `name(1)`,
      `name(2)`, ... */
  function Candidate(name: string, k: nat): string {
    if k == 0 then name else name + "(" + NatToString(k) + ")"
  }

  /** No name is tried twice. */
  lemma CandidateInjective(name: string, j: nat, k: nat)
    requires Candidate(name, j) == Candidate(name, k)
    ensures j == k
  {
    if j != 0 && k != 0 {
      var s := Candidate(name, j);
      assert NatToString(j) == s[|name| + 1..|s| - 1] == NatToString(k);
      IntToStringInjective(j, k);
    }
  }

  /** The first `k` names tried. */
  function Tried(name: string, k: nat): (r: set<string>)
    ensures forall j | 0 <= j < k :: Candidate(name, j) in r
  {
    if k == 0 then {} else Tried(name, k - 1) + {Candidate(name, k - 1)}
  }

  lemma {:induction false} NotTriedYet(name: string, k: nat)
    ensures Candidate(name, k) !in Tried(name, k)
  {
    if k > 0 {
      assert Candidate(name, k) != Candidate(name, k - 1) by {
        if Candidate(name, k) == Candidate(name, k - 1) {
          CandidateInjective(name, k, k - 1);
        }
      }
      NotTriedYetBelow(name, k - 1, k);
    }
  }

  lemma {:induction false} NotTriedYetBelow(name: string, k: nat, m: nat)
    requires k < m
    ensures Candidate(name, m) !in Tried(name, k)
  {
    if k > 0 {
      assert Candidate(name, m) != Candidate(name, k - 1) by {
        if Candidate(name, m) == Candidate(name, k - 1) {
          CandidateInjective(name, m, k - 1);
        }
      }
      NotTriedYetBelow(name, k - 1, m);
    }
  }

  /** The id `cmd_save_current_list` gives the new playlist: the first of `name`, `name(1)`,
      `name(2)`, ... that is not already an id. */
  method NewListId(name: string, ids: seq<string>) returns (id: string)
    ensures id !in ids
    ensures exists k: nat :: id == Candidate(name, k) && forall j | 0 <= j < k :: Candidate(name, j) in ids
  {
    id := name;
    var index := 1;
    ghost var idSet := set x | x in ids;
    while id in ids
      invariant index >= 1 && id == Candidate(name, index - 1)
      invariant forall j | 0 <= j < index - 1 :: Candidate(name, j) in ids
      invariant Tried(name, index - 1) <= idSet
      decreases idSet - Tried(name, index - 1)
    {
      NotTriedYet(name, index - 1);
      id := name + "(" + NatToString(index) + ")";
      index := index + 1;
    }
  }

  // ---------------------------------------------------------------------------
  // Paging through a playlist

  /** One page the player's API answers: its songs, the playlist's song count and title, and
      the playing position. */
  datatype Page = Page(items: seq<string>, songCount: int, title: string, playbackIndex: int)

  /** What `get_list_songs_info` gathers: every song, and the last page's count, title and
      (for the current list only) playing position. */
  datatype Listing = Listing(items: seq<string>, songCount: int, title: string, playbackIndex: Option<int>)

  /** The end of the download: the listing, `None` after a failed request, or (when the
      server keeps answering pages that never reach its count) no end within `fuel` pages. */
  datatype Paged = Collected(listing: Listing) | Failed | Unfinished

  /** The pages from `offset` on, after `items` were gathered, with at most `fuel` more
      requests; `fetch(o)` is the answer to the request at offset `o` (`None` when it fails). */
  function Collect(fetch: nat -> Option<Page>, current: bool, offset: nat, items: seq<string>, fuel: nat): (r: Paged)
    ensures r.Collected? ==> |r.listing.items| >= r.listing.songCount && items <= r.listing.items
    ensures r.Collected? ==> (r.listing.playbackIndex.Some? <==> current)
    ensures fuel > 0 && fetch(offset).None? ==> r.Failed?
    decreases fuel
  {
    if fuel == 0 then Unfinished
    else
      match fetch(offset)
      case None => Failed
      case Some(p) =>
        var gathered := items + p.items;
        if |gathered| >= p.songCount then
          Collected(Listing(gathered, p.songCount, p.title, if current then Some(p.playbackIndex) else None))
        else
          Collect(fetch, current, offset + PageSize, gathered, fuel - 1)
  }

  /** A server that answers every offset with the next (up to) twenty songs of `songs` is
      read to the end: the listing holds exactly those songs. */
  ghost predicate Serves(fetch: nat -> Option<Page>, songs: seq<string>, title: string, at: int) {
    forall o: nat :: fetch(o) == Some(Page(songs[Min(o, |songs|)..Min(o + PageSize, |songs|)], |songs|, title, at))
  }

  function Min(a: int, b: int): int { if a <= b then a else b }

  lemma {:induction false} CollectReadsWholeList(fetch: nat -> Option<Page>, current: bool, songs: seq<string>, title: string, at: int, offset: nat, fuel: nat)
    requires Serves(fetch, songs, title, at)
    requires offset == 0 || offset < |songs|
    requires fuel > (|songs| - offset) / PageSize
    ensures Collect(fetch, current, offset, songs[..Min(offset, |songs|)], fuel) ==
      Collected(Listing(songs, |songs|, title, if current then Some(at) else None))
    decreases fuel
  {
    var p := fetch(offset).value;
    var before := songs[..Min(offset, |songs|)];
    assert before + p.items == songs[..Min(offset + PageSize, |songs|)];
    if offset + PageSize < |songs| {
      CollectReadsWholeList(fetch, current, songs, title, at, offset + PageSize, fuel - 1);
    } else {
      assert songs[..Min(offset + PageSize, |songs|)] == songs;
    }
  }

  /** `get_list_songs_info`: requests pages of twenty from offset 0 and gathers their songs
      until there are at least as many as the server counts; a failed request ends it with
      `None`. */
  method GetListSongsInfo(fetch: nat -> Option<Page>, current: bool, fuel: nat) returns (r: Paged)
    ensures r == Collect(fetch, current, 0, [], fuel)
  {
    var items: seq<string> := [];
    var offset: nat := 0;
    var left := fuel;
    while true
      invariant Collect(fetch, current, offset, items, left) == Collect(fetch, current, 0, [], fuel)
      decreases left
    {
      if left == 0 {
        return Unfinished;
      }
      var rep := fetch(offset);
      if rep.None? {
        return Failed;
      }
      var page := rep.value;
      items := items + page.items;
      offset := offset + PageSize;
      left := left - 1;
      if |items| >= page.songCount {
        return Collected(Listing(items, page.songCount, page.title, if current then Some(page.playbackIndex) else None));
      }
    }
  }

  // ---------------------------------------------------------------------------
  // The bot

  /** What the player's API says about the song behind a link: its singers, title and cover;
      `None` when the lookup raises. */
  datatype SongCard = SongCard(singers: string, title: string, avatar: string)

  /** The answers of the collaborators during one turn of `listen`: the link the player
      plays (`None` when the request fails or is refused), the song behind a link, the
      channel `follow` records as the bot's own (the channel the bot is in when `follow`
      asks, before it moves to the player's channel; `None` when the player is not online),
      and the chat service. */
  datatype LegacyEnv = LegacyEnv(
    playingLink: Option<string>,
    songOf: string -> Option<SongCard>,
    follow: Option<int>,
    chat: string -> string)

  /** The number of `listen` turns after which the timer goes off: it goes off on the turn
      that takes the count past `timeout`. */
  function CountAfter(count: nat, timeout: nat): (r: (nat, bool))
    ensures r.1 <==> count + 1 > timeout
    ensures r.0 == if r.1 then 0 else count + 1
  {
    if count + 1 > timeout then (0, true) else (count + 1, false)
  }

  /** One more turn moves the count since the last timeout on by one, and past the period
      starts it again with one more timeout. */
  lemma TurnCount(i: nat, m: nat)
    requires m > 0
    ensures i % m + 1 == m ==> (i + 1) % m == 0 && (i + 1) / m == i / m + 1
    ensures i % m + 1 < m ==> (i + 1) % m == i % m + 1 && (i + 1) / m == i / m
  {
    var q, r := i / m, i % m;
    if r + 1 == m {
      DivUnique(i + 1, m, q + 1, 0);
    } else {
      DivUnique(i + 1, m, q, r + 1);
    }
  }

  /** The quotient and remainder are the only ones with a remainder below the divisor. */
  lemma DivUnique(n: int, m: int, q: int, r: int)
    requires m > 0 && 0 <= r < m && n == m * q + r
    ensures n / m == q && n % m == r
  {
    var k := q - n / m;
    assert m * k == n % m - r by {
      assert m * q - m * (n / m) == m * k;
    }
    MultipleOutsideDivisor(m, k);
  }

  lemma MultipleOutsideDivisor(m: int, k: int)
    requires m > 0
    ensures k >= 1 ==> m * k >= m
    ensures k <= -1 ==> m * k <= -m
  {
    if k >= 1 {
      assert m * k == m + m * (k - 1);
    } else if k <= -1 {
      assert m * k == -m + m * (k + 1);
    }
  }

  class AudioBot {
    var chatEnable: bool
    var targetmode: int
    var cid: int
    var previousLink: Option<string>
    var queue: Queue
    var outbox: seq<Outgoing>
    var calls: seq<Call>
    var delegated: seq<Delegation>

    /** The module-level alias table `cmd_alias`, and the `cmd_<name>` methods the bot has. */
    const table: seq<Command>
    const handlers: set<string>
    const chatConfigured: bool
    const ignoreUsers: seq<string>
    const sid: int
    const timeout: nat
    const interval: nat

    /** Chat off, server-wide messages, nothing announced, and the fixed settings of the
        source (the timer counts 60 turns, each a one-unit wait). */
    constructor (chatApiSet: bool, ignore: seq<string>, events: Queue)
      ensures !chatEnable && targetmode == ServerTargetMode && cid == 1 && sid == 1
      ensures previousLink == None && queue == events && outbox == [] && calls == [] && delegated == []
      ensures table == LegacyTable() && handlers == LegacyHandlers()
      ensures chatConfigured == chatApiSet && ignoreUsers == ignore && timeout == 60 && interval == 1
    {
      table := LegacyTable();
      handlers := LegacyHandlers();
      chatEnable := false;
      targetmode := ServerTargetMode;
      cid := 1;
      sid := 1;
      previousLink := None;
      queue := events;
      outbox := [];
      calls := [];
      delegated := [];
      chatConfigured := chatApiSet;
      ignoreUsers := ignore;
      timeout := 60;
      interval := 1;
    }

    /** The message `send(msg, color)` posts: colour tags only, never bold. */
    function Posted(msg: string, color: Option<string>): Outgoing
      reads this
    {
      Outgoing(targetmode, if targetmode == ServerTargetMode then sid else cid, Format(msg, color, false))
    }

    method Send(msg: string, color: Option<string>)
      modifies this
      ensures outbox == old(outbox) + [Posted(msg, color)]
      ensures chatEnable == old(chatEnable) && targetmode == old(targetmode) && cid == old(cid)
      ensures previousLink == old(previousLink) && queue == old(queue)
      ensures calls == old(calls) && delegated == old(delegated)
    {
      outbox := outbox + [Posted(msg, color)];
    }

    /** `update`: when the player plays a link other than the last one recorded, the
        description and cover of its song are set and the link recorded; a failed song
        lookup raises (`raised`) with nothing set. */
    method Update(env: LegacyEnv) returns (raised: bool)
      modifies this
      ensures chatEnable == old(chatEnable) && targetmode == old(targetmode) && cid == old(cid)
      ensures queue == old(queue) && outbox == old(outbox) && delegated == old(delegated)
      ensures var newLink := env.playingLink.Some? && old(previousLink) != env.playingLink;
        && (raised <==> newLink && env.songOf(env.playingLink.value).None?)
        && (newLink && !raised ==>
             var card := env.songOf(env.playingLink.value).value;
             && previousLink == env.playingLink
             && calls == old(calls) + [Describe(NowPlayingFrom + card.singers + NowPlayingOf + card.title), SetAvatar(card.avatar)])
        && (!newLink || raised ==> previousLink == old(previousLink) && calls == old(calls))
    {
      raised := false;
      if env.playingLink.None? || previousLink == env.playingLink {
        return;
      }
      var link := env.playingLink.value;
      var card := env.songOf(link);
      if card.None? {
        return true;
      }
      calls := calls + [Describe(NowPlayingFrom + card.value.singers + NowPlayingOf + card.value.title), SetAvatar(card.value.avatar)];
      previousLink := Some(link);
    }

    /** `_timeout`: chat mode, if on, is turned off with a goodbye. */
    method Timeout()
      modifies this
      ensures !chatEnable && targetmode == old(targetmode) && cid == old(cid)
      ensures previousLink == old(previousLink) && queue == old(queue)
      ensures calls == old(calls) && delegated == old(delegated)
      ensures outbox == old(outbox) + (if old(chatEnable) then [Posted(Goodbye, None)] else [])
    {
      if chatEnable {
        chatEnable := false;
        Send(Goodbye, None);
      }
    }

    /** What `cmd_chat` does with the arguments `args` from `senderName`: without a chat
        service it says so; an empty first argument turns chat mode on and resets the
        service; otherwise, in chat mode and only with a second argument, it sends
        `name：first argument` to the service and posts the reply. */
    twostate predicate ChatDone(senderName: string, args: seq<string>, chat: string -> string)
      reads this
    {
      && |args| >= 1
      && (!chatConfigured ==>
        chatEnable == old(chatEnable) && calls == old(calls) && outbox == old(outbox) + [Posted(ChatUnset, None)])
      && (chatConfigured && args[0] == "" ==>
        chatEnable && calls == old(calls) + [ChatReset] && outbox == old(outbox) + [Posted(ChatOn, None)])
      && (chatConfigured && args[0] != "" && (!old(chatEnable) || |args| < 2) ==>
        chatEnable == old(chatEnable) && calls == old(calls) && outbox == old(outbox))
      && (chatConfigured && args[0] != "" && old(chatEnable) && |args| >= 2 ==>
        var prompt := senderName + ChatSeparator + args[0];
        chatEnable && calls == old(calls) + [Chat(prompt)] && outbox == old(outbox) + [Posted(chat(prompt), None)])
    }

    /** `cmd_chat`, as `ChatDone` says. */
    method CmdChat(senderName: string, args: seq<string>, chat: string -> string)
      requires |args| >= 1
      modifies this
      ensures targetmode == old(targetmode) && cid == old(cid) && previousLink == old(previousLink)
      ensures queue == old(queue) && delegated == old(delegated)
      ensures ChatDone(senderName, args, chat)
    {
      if !chatConfigured {
        Send(ChatUnset, None);
        return;
      }
      if args[0] == "" {
        chatEnable := true;
        calls := calls + [ChatReset];
        Send(ChatOn, None);
        return;
      }
      if !chatEnable || |args| < 2 {
        return;
      }
      var prompt := senderName + ChatSeparator + args[0];
      calls := calls + [Chat(prompt)];
      Send(chat(prompt), None);
    }

    /** `handle`: remembers the event's target mode, routes the message through the alias
        table and runs the handler. */
    method Handle(e: Event, chat: string -> string) returns (route: Route)
      modifies this
      ensures route == RouteOf(table, handlers, e.msg)
      ensures targetmode == e.targetmode && cid == old(cid) && previousLink == old(previousLink) && queue == old(queue)
      ensures (route.Default? && !old(chatEnable)) || route.NoHandler? ==>
        chatEnable == old(chatEnable) && outbox == old(outbox) && calls == old(calls) && delegated == old(delegated)
      ensures route.Default? && e.msg != "" ==>
        chatEnable == old(chatEnable) && calls == old(calls) && delegated == old(delegated)
      ensures route.Dispatch? && route.command != "chat" ==>
        && chatEnable == old(chatEnable) && outbox == old(outbox) && calls == old(calls)
        && delegated == old(delegated) + [Delegation(route.command, route.args)]
      ensures route.Default? && old(chatEnable) ==> ChatDone(e.name, [e.msg], chat)
      ensures route.Dispatch? && route.command == "chat" ==> ChatDone(e.name, route.args, chat) && delegated == old(delegated)
    {
      targetmode := e.targetmode;
      route := Routing(table, handlers, e.msg);
      Run(route, e.name, e.msg, chat);
    }

    /** Runs the handler a route names: an unmatched message goes to `cmd_chat` whole, in
        chat mode only, where as a single argument it is never forwarded to the chat service;
        a command without a handler is dropped; the chat command runs here and any other
        handler is recorded in `delegated`. */
    method Run(route: Route, senderName: string, msg: string, chat: string -> string)
      requires route.Dispatch? ==> |route.args| >= 1
      modifies this
      ensures targetmode == old(targetmode) && cid == old(cid) && previousLink == old(previousLink) && queue == old(queue)
      ensures (route.Default? && !old(chatEnable)) || route.NoHandler? ==>
        chatEnable == old(chatEnable) && outbox == old(outbox) && calls == old(calls) && delegated == old(delegated)
      ensures route.Default? && msg != "" ==>
        chatEnable == old(chatEnable) && calls == old(calls) && delegated == old(delegated)
      ensures route.Dispatch? && route.command != "chat" ==>
        && chatEnable == old(chatEnable) && outbox == old(outbox) && calls == old(calls)
        && delegated == old(delegated) + [Delegation(route.command, route.args)]
      ensures route.Default? && old(chatEnable) ==> ChatDone(senderName, [msg], chat)
      ensures route.Dispatch? && route.command == "chat" ==> ChatDone(senderName, route.args, chat) && delegated == old(delegated)
    {
      match route {
        case Default =>
          if chatEnable {
            CmdChat(senderName, [msg], chat);
          }
        case NoHandler(_) =>
        case Dispatch(name, args) =>
          if name == "chat" {
            CmdChat(senderName, args, chat);
          } else {
            delegated := delegated + [Delegation(name, args)];
          }
      }
    }

    /** `wait_event(t)` on the server's queue. */
    method WaitEvent(t: nat) returns (w: WaitOutcome)
      modifies this
      ensures Waited(w, queue) == LegacyAccept(old(queue), t, ignoreUsers)
      ensures chatEnable == old(chatEnable) && targetmode == old(targetmode) && cid == old(cid)
      ensures previousLink == old(previousLink) && outbox == old(outbox) && calls == old(calls) && delegated == old(delegated)
    {
      var r := LegacyWaitLoop(queue, t, ignoreUsers);
      queue := r.queue;
      w := r.outcome;
    }

    /** `ask`: posts the question and waits once; a timeout is announced and gives `''`,
        an event gives its stripped text, from whoever sent it; an event without a sender
        raises. */
    method Ask(question: string, t: nat) returns (answer: string, raised: bool)
      modifies this
      ensures chatEnable == old(chatEnable) && targetmode == old(targetmode) && cid == old(cid)
      ensures previousLink == old(previousLink) && calls == old(calls) && delegated == old(delegated)
      ensures var w := LegacyAccept(old(queue), t, ignoreUsers);
        && queue == w.queue
        && (raised <==> w.outcome.NoSender?)
        && answer == (if w.outcome.Got? then Strip(w.outcome.e.msg) else "")
        && outbox == old(outbox) + [Posted(question + AskSuffix, None)]
                    + (if w.outcome.TimedOut? then [Posted(NoAction, None)] else [])
    {
      Send(question + AskSuffix, None);
      ghost var out := outbox;
      var w := WaitEvent(t);
      match w
      case TimedOut =>
        Send(NoAction, None);
        return "", false;
      case NoSender =>
        return "", true;
      case Got(e) =>
        assert out + [] == out;
        return Strip(e.msg), false;
    }

    /** `confirm`: posts the question with the yes/no hint and waits once; yes only for an
        event whose text starts with "是"; a timeout is announced. */
    method Confirm(question: string, t: nat) returns (yes: bool, raised: bool)
      modifies this
      ensures chatEnable == old(chatEnable) && targetmode == old(targetmode) && cid == old(cid)
      ensures previousLink == old(previousLink) && calls == old(calls) && delegated == old(delegated)
      ensures var w := LegacyAccept(old(queue), t, ignoreUsers);
        && queue == w.queue
        && (raised <==> w.outcome.NoSender?)
        && (yes <==> w.outcome.Got? && StartsWith(w.outcome.e.msg, Yes))
        && outbox == old(outbox) + [Posted(question + LegacyConfirmSuffix, None)]
                    + (if w.outcome.TimedOut? then [Posted(NoAction, None)] else [])
    {
      Send(question + LegacyConfirmSuffix, None);
      ghost var out := outbox;
      var w := WaitEvent(t);
      match w
      case TimedOut =>
        Send(NoAction, None);
        return false, false;
      case NoSender =>
        return false, true;
      case Got(e) =>
        assert out + [] == out;
        return StartsWith(e.msg, Yes), false;
    }

    /** One turn of `listen` with the turn counter `count`: `update`, `follow`, a wait of
        `interval` and the handling of its event, the first failure ending that part of the
        turn; then the counter moves on, and past `timeout` it restarts and `_timeout` runs. */
    method ListenTick(count: nat, env: LegacyEnv) returns (next: nat, timedOut: bool)
      modifies this
      ensures (next, timedOut) == CountAfter(count, timeout)
      ensures timedOut ==> !chatEnable
    {
      var raised := Update(env);
      if !raised {
        if env.follow.None? {
          raised := true;
        } else {
          cid := env.follow.value;
        }
      }
      if !raised {
        var w := WaitEvent(interval);
        if w.Got? {
          var _ := Handle(w.e, env.chat);
        }
      }
      next, timedOut := count + 1, false;
      if next > timeout {
        next, timedOut := 0, true;
        Timeout();
      }
    }

    /** `listen` for as many turns as there are entries in `envs`: the timer goes off once
        every `timeout + 1` turns, and the counter is the number of turns since it last did. */
    method Listen(envs: seq<LegacyEnv>) returns (count: nat, timeouts: nat)
      modifies this
      ensures timeouts == |envs| / (timeout + 1) && count == |envs| % (timeout + 1)
    {
      count, timeouts := 0, 0;
      var i := 0;
      while i < |envs|
        invariant 0 <= i <= |envs|
        invariant count == i % (timeout + 1) && timeouts == i / (timeout + 1)
      {
        var fired;
        count, fired := ListenTick(count, envs[i]);
        if fired {
          timeouts := timeouts + 1;
        }
        TurnCount(i, timeout + 1);
        i := i + 1;
      }
    }
  }
}
