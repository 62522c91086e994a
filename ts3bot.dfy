/** The current bot (`TS3Bot`): its command table, the registered music backends and the one
    elected to play, chat mode, the player synchronisation, the inactivity timer and the
    question-and-answer exchange. The chat server is the event queue of `Events`; what the
    bot sends is appended to `outbox`, and its calls to the player and to the chat service
    are appended to `calls`. */
module TS3BotModel {
  import opened Wrappers
  import opened PyStr
  import opened Commands
  import opened Router
  import opened BaseApi
  import opened MusicData
  import opened MusicApiModel
  import opened DictOrder
  import opened Events
  import opened Dialog
  import opened Election
  import opened BotRules
  import opened BotLoops

  /** The answers of the collaborators the bot consults during one step: the audio player
      (`is_playing`, the link it is playing, `play`), the elected backend's song and cover
      links, each registered backend's availability probe, and the chat service. */
  datatype Env = Env(
    isPlaying: Reply<bool>,
    playingLink: Reply<string>,
    play: string -> Reply<()>,
    songLink: string -> Reply<string>,
    avatarLink: string -> Reply<string>,
    available: string -> bool,
    chat: string -> Reply<string>)

  /** A call the bot makes on the audio player or on the chat service. */
  datatype Call = Play(link: string) | Describe(text: string) | SetAvatar(link: string) | ChatReset | Chat(prompt: string)

  /** A command handed to a handler that is not part of this model. */
  datatype Delegation = Delegation(command: string, args: seq<string>)

  /** The player calls `update_info` makes for a song: the description, then the cover, which
      is `''` when the backend has none. */
  function InfoCalls(song: Song, env: Env): seq<Call> {
    [Describe(NowPlaying(song)), SetAvatar(match env.avatarLink(song.id) case Ok(a) => a case Err(_) => "")]
  }

  /** Every registered backend's playlist store, and the elected one's, is consistent. */
  predicate Healthy(bs: map<string, MusicApi>, m: MusicApi?)
    reads m, bs.Values
  {
    && (forall id | id in bs :: bs[id].Valid())
    && (m != null ==> m.Valid())
  }

  /** Registering a consistent backend keeps the backends consistent (`RegisterMusicApi`
      changes only the bot, so its caller keeps `Healthy` with this lemma). */
  lemma RegisterKeepsHealthy(bs: map<string, MusicApi>, m: MusicApi?, id: string, api: MusicApi)
    requires Healthy(bs, m) && api.Valid()
    ensures Healthy(bs[id := api], m)
  {
  }

  class TS3Bot {
    /** The registered commands, in search order. */
    var commands: seq<Command>
    /** `music_apis`: id, priority and accessibility of every registered backend ... */
    var musicApis: map<string, ApiInfo>
    /** ... in registration order ... */
    var apiOrder: seq<string>
    /** ... and the backend object registered under each id. */
    var backends: map<string, MusicApi>
    /** The id of the elected backend; `None` before the first election. */
    var currentMusicApi: Option<string>
    var musicApi: MusicApi?
    var chatEnable: bool
    var targetmode: int
    var previousLink: Option<string>
    /** The chat server's events and clock. */
    var queue: Queue
    /** When the inactivity timer of `listen` last started. */
    var timeStart: int
    var outbox: seq<Outgoing>
    var calls: seq<Call>
    var delegated: seq<Delegation>

    /** The `cmd_<name>` methods the bot has. */
    const handlers: set<string>
    const chatConfigured: bool
    const ignoreUsers: seq<string>
    const sid: int
    const cid: int
    const interval: nat
    const timeout: nat

    /** The table and its order agree, each entry sits under its own id, an elected id is
        registered, and the timer never starts in the future. The consistency of the backends'
        playlist stores is `Healthy`, kept by the methods that touch them. */
    predicate Valid()
      reads this
    {
      && TableValid(apiOrder, musicApis, backends)
      && (currentMusicApi.Some? ==> currentMusicApi.value in musicApis)
      && timeStart <= queue.clock
    }

    /** Nothing about the backends and the elected one changes. */
    twostate predicate SelectionKept()
      reads this
    {
      && musicApis == old(musicApis) && apiOrder == old(apiOrder) && backends == old(backends)
      && currentMusicApi == old(currentMusicApi) && musicApi == old(musicApi)
    }

    /** Nothing about the commands, chat mode, the conversation or the timer changes. */
    twostate predicate SessionKept()
      reads this
    {
      && commands == old(commands) && chatEnable == old(chatEnable) && targetmode == old(targetmode)
      && previousLink == old(previousLink) && queue == old(queue) && timeStart == old(timeStart)
      && delegated == old(delegated)
    }

    /** What `cmd_chat` does with the arguments `args` from `senderName`: without a chat
        service it reports so; an empty first argument turns chat mode on, resets the service
        and says so; with chat mode off it does nothing; otherwise it sends `name：text` to the
        service and posts the reply, or reports the failure in red. */
    twostate predicate ChatDone(senderName: string, args: seq<string>, chat: string -> Reply<string>)
      reads this
    {
      && |args| >= 1
      && (!chatConfigured ==>
        && chatEnable == old(chatEnable) && calls == old(calls)
        && outbox == old(outbox) + [Posted(ChatUnset, Some("red"), true)])
      && (chatConfigured && args[0] == "" ==>
        && chatEnable && calls == old(calls) + [ChatReset]
        && outbox == old(outbox) + [Posted(ChatOn, None, false)])
      && (chatConfigured && args[0] != "" && !old(chatEnable) ==>
        !chatEnable && calls == old(calls) && outbox == old(outbox))
      && (chatConfigured && args[0] != "" && old(chatEnable) ==>
        var prompt := senderName + ChatSeparator + args[0];
        && chatEnable && calls == old(calls) + [Chat(prompt)]
        && outbox == old(outbox) + [match chat(prompt) case Ok(d) => Posted(d, None, false) case Err(m) => Posted(m, Some("red"), true)])
    }

    /** What `cmd_set_priority` does with `args`: a missing id, a missing priority or a
        priority that is not a number is asked for again; an unknown id is reported in red;
        otherwise that entry's priority is set and the change reported in green. The election
        and the calls are left alone. */
    twostate predicate PriorityDone(args: seq<string>)
      reads this
    {
      && |args| >= 1
      && apiOrder == old(apiOrder) && backends == old(backends)
      && currentMusicApi == old(currentMusicApi) && musicApi == old(musicApi) && calls == old(calls)
      && (args[0] == "" ==> musicApis == old(musicApis) && outbox == old(outbox) + [Posted(AskApiId, None, false)])
      && (args[0] != "" && |args| < 2 ==>
        musicApis == old(musicApis) && outbox == old(outbox) + [Posted(AskPriority, None, false)])
      && (args[0] != "" && |args| >= 2 && ParseInt(args[1]).None? ==>
        musicApis == old(musicApis) && outbox == old(outbox) + [Posted(AskNumber, None, false)])
      && (args[0] != "" && |args| >= 2 && ParseInt(args[1]).Some? && args[0] !in old(musicApis) ==>
        musicApis == old(musicApis) && outbox == old(outbox) + [Posted(UnknownApi, Some("red"), true)])
      && (args[0] != "" && |args| >= 2 && ParseInt(args[1]).Some? && args[0] in old(musicApis) ==>
        && musicApis == old(musicApis)[args[0] := old(musicApis)[args[0]].(priority := ParseInt(args[1]).value)]
        && outbox == old(outbox) + [Posted(PriorityChanged, Some("green"), true)])
    }

    /** The election `update_music_api` makes from the probed table: the best available entry
        is elected, the backend object switched only when the id changes; with no available
        entry the election is left as it was. The table itself does not change. */
    twostate predicate ElectedFromTable()
      reads this
    {
      && musicApis == old(musicApis) && apiOrder == old(apiOrder) && backends == old(backends)
      && (forall i | 0 <= i < |apiOrder| :: apiOrder[i] in musicApis)
      && (forall id | id in musicApis :: musicApis[id].id == id)
      && var e := ElectedId(apiOrder, musicApis);
        && (e.None? ==> currentMusicApi == old(currentMusicApi) && musicApi == old(musicApi))
        && (e.Some? ==> currentMusicApi == e && e.value in backends)
        && (e.Some? && old(currentMusicApi) == e ==> musicApi == old(musicApi))
        && (e.Some? && old(currentMusicApi) != e ==> musicApi == backends[e.value])
    }

    /** The state `update_music_api` leaves: the table probed with `available`, and the
        election of `ElectedFromTable` made from it. */
    twostate predicate Elected(available: string -> bool)
      reads this
    {
      && musicApis == Probed(old(musicApis), available)
      && apiOrder == old(apiOrder) && backends == old(backends)
      && (forall i | 0 <= i < |apiOrder| :: apiOrder[i] in musicApis)
      && (forall id | id in musicApis :: musicApis[id].id == id)
      && var e := ElectedId(apiOrder, musicApis);
        && (e.None? ==> currentMusicApi == old(currentMusicApi) && musicApi == old(musicApi))
        && (e.Some? ==> currentMusicApi == e && e.value in backends)
        && (e.Some? && old(currentMusicApi) == e ==> musicApi == old(musicApi))
        && (e.Some? && old(currentMusicApi) != e ==> musicApi == backends[e.value])
    }

    /** The message `send(msg, color, bold)` posts: to the server when the target mode is 3,
        to the channel otherwise. */
    function Posted(msg: string, color: Option<string>, bold: bool): Outgoing
      reads this
    {
      Outgoing(targetmode, if targetmode == ServerTargetMode then sid else cid, Format(msg, color, bold))
    }

    /** A bot with no commands and no registered backend, chat mode off, the given backend
        (if any) set but not elected, and the fixed settings of the source. */
    constructor (audioBotUid: string, api: MusicApi?, chatApiSet: bool, events: Queue)
      requires api != null ==> api.Valid()
      ensures Valid() && Healthy(backends, musicApi)
      ensures commands == [] && musicApis == map[] && apiOrder == [] && backends == map[]
      ensures currentMusicApi == None && musicApi == api
      ensures !chatEnable && chatConfigured == chatApiSet && handlers == ShippedHandlers()
      ensures ignoreUsers == ["serveradmin", "ServerQuery", audioBotUid]
      ensures sid == 1 && cid == 1 && targetmode == ServerTargetMode && interval == 3 && timeout == 60
      ensures previousLink == None && queue == events && timeStart == events.clock
      ensures outbox == [] && calls == [] && delegated == []
    {
      commands := [];
      musicApis := map[];
      apiOrder := [];
      backends := map[];
      currentMusicApi := None;
      musicApi := api;
      chatEnable := false;
      targetmode := ServerTargetMode;
      previousLink := None;
      queue := events;
      timeStart := events.clock;
      outbox := [];
      calls := [];
      delegated := [];
      handlers := ShippedHandlers();
      chatConfigured := chatApiSet;
      ignoreUsers := ["serveradmin", "ServerQuery", audioBotUid];
      sid := 1;
      cid := 1;
      interval := 3;
      timeout := 60;
    }

    // -------------------------------------------------------------------------
    // Sending

    method Send(msg: string, color: Option<string>, bold: bool)
      requires Valid()
      modifies this
      ensures Valid() && SelectionKept() && SessionKept()
      ensures outbox == old(outbox) + [Posted(msg, color, bold)] && calls == old(calls)
    {
      outbox := outbox + [Posted(msg, color, bold)];
    }

    method Success(msg: string)
      requires Valid()
      modifies this
      ensures Valid() && SelectionKept() && SessionKept()
      ensures outbox == old(outbox) + [Posted(msg, Some("green"), true)] && calls == old(calls)
    {
      Send(msg, Some("green"), true);
    }

    method Error(msg: string)
      requires Valid()
      modifies this
      ensures Valid() && SelectionKept() && SessionKept()
      ensures outbox == old(outbox) + [Posted(msg, Some("red"), true)] && calls == old(calls)
    {
      Send(msg, Some("red"), true);
    }

    method Info(msg: string)
      requires Valid()
      modifies this
      ensures Valid() && SelectionKept() && SessionKept()
      ensures outbox == old(outbox) + [Posted(msg, None, false)] && calls == old(calls)
    {
      Send(msg, None, false);
    }

    method Warning(msg: string)
      requires Valid()
      modifies this
      ensures Valid() && SelectionKept() && SessionKept()
      ensures outbox == old(outbox) + [Posted(msg, None, true)] && calls == old(calls)
    {
      Send(msg, None, true);
    }

    // -------------------------------------------------------------------------
    // Registration and election

    /** Registers (or re-registers) a backend as not yet available; a new id goes to the end
        of the table's order, a known one keeps its place. */
    method RegisterMusicApi(api: MusicApi, apiId: string, priority: int)
      requires Valid()
      modifies this
      ensures Valid() && SessionKept()
      ensures musicApis == old(musicApis)[apiId := ApiInfo(apiId, priority, false)]
      ensures backends == old(backends)[apiId := api]
      ensures apiOrder == Put(old(apiOrder), apiId)
      ensures currentMusicApi == old(currentMusicApi) && musicApi == old(musicApi)
      ensures outbox == old(outbox) && calls == old(calls)
    {
      RegisterKeepsTable(apiOrder, musicApis, backends, apiId, priority, api);
      musicApis := musicApis[apiId := ApiInfo(apiId, priority, false)];
      backends := backends[apiId := api];
      apiOrder := Put(apiOrder, apiId);
    }

    /** Appends the commands of `items` in order, skipping entries that are neither; a
        dictionary that does not describe a command stops the loop and is reported. */
    method RegisterCommands(items: seq<CommandInput>) returns (failure: Option<Refusal>)
      requires Valid()
      modifies this
      ensures Valid() && SelectionKept()
      ensures commands == old(commands) + Converted(items).cmds && failure == Converted(items).failure
      ensures chatEnable == old(chatEnable) && targetmode == old(targetmode) && previousLink == old(previousLink)
      ensures queue == old(queue) && timeStart == old(timeStart) && delegated == old(delegated)
      ensures outbox == old(outbox) && calls == old(calls)
    {
      var added;
      added, failure := RegisterLoop(items);
      commands := commands + added;
    }

    /** Sets every entry's accessibility to the answer of its backend's probe. */
    method CheckApisAccess(available: string -> bool)
      requires Valid()
      modifies this
      ensures Valid() && SessionKept()
      ensures musicApis == Probed(old(musicApis), available)
      ensures apiOrder == old(apiOrder) && backends == old(backends)
      ensures currentMusicApi == old(currentMusicApi) && musicApi == old(musicApi)
      ensures outbox == old(outbox) && calls == old(calls)
    {
      musicApis := ProbeLoop(apiOrder, musicApis, available);
    }

    /** Sorts the entries by priority, highest first and stably, and elects the first
        available one, switching only when its id is not the elected id. */
    method ElectMusicApi()
      requires Valid() && Healthy(backends, musicApi)
      modifies this
      ensures Healthy(backends, musicApi)
      ensures Valid() && ElectedFromTable() && SessionKept()
      ensures outbox == old(outbox) && calls == old(calls)
    {
      var e := Elect(apiOrder, musicApis);
      SwitchMusicApi(e);
    }

    /** Switches to the backend registered under `e`, unless `e` is already elected. */
    method SwitchMusicApi(e: Option<string>)
      requires Valid() && Healthy(backends, musicApi) && (e.Some? ==> e.value in backends)
      modifies this
      ensures Healthy(backends, musicApi)
      ensures Valid() && SessionKept()
      ensures musicApis == old(musicApis) && apiOrder == old(apiOrder) && backends == old(backends)
      ensures e.None? ==> currentMusicApi == old(currentMusicApi) && musicApi == old(musicApi)
      ensures e.Some? ==> currentMusicApi == e
      ensures e.Some? && old(currentMusicApi) == e ==> musicApi == old(musicApi)
      ensures e.Some? && old(currentMusicApi) != e ==> musicApi == backends[e.value]
      ensures outbox == old(outbox) && calls == old(calls)
    {
      if e.Some? && currentMusicApi != e {
        musicApi := backends[e.value];
        currentMusicApi := e;
      }
    }

    /** Probes every backend (`check_apis_access`), then elects from the probed table. */
    method UpdateMusicApi(available: string -> bool)
      requires Valid() && Healthy(backends, musicApi)
      modifies this
      ensures Healthy(backends, musicApi)
      ensures Valid() && Elected(available) && SessionKept()
      ensures outbox == old(outbox) && calls == old(calls)
    {
      CheckApisAccess(available);
      ElectMusicApi();
    }

    /** `cmd_set_priority id priority`: asks again for a missing id, a missing priority or a
        priority that is not a number; reports an unknown id and stops there; otherwise sets
        the priority, which the next election uses. */
    method CmdSetPriority(args: seq<string>)
      requires Valid() && |args| >= 1
      modifies this
      ensures Valid() && SessionKept() && PriorityDone(args)
    {
      if args[0] == "" {
        Send(AskApiId, None, false);
        return;
      }
      if |args| < 2 {
        Send(AskPriority, None, false);
        return;
      }
      var priority := ParseInt(args[1]);
      if priority.None? {
        Send(AskNumber, None, false);
        return;
      }
      var apiId := args[0];
      if apiId !in musicApis {
        Error(UnknownApi);
        // the lookup that follows raises KeyError, which ends the command here
        return;
      }
      musicApis := musicApis[apiId := musicApis[apiId].(priority := priority.value)];
      Success(PriorityChanged);
    }

    // -------------------------------------------------------------------------
    // Events and the conversation

    /** `wait_event(timeout)`: waits until an event from a sender that is named and not
        ignored arrives, or until one wait times out. */
    method WaitEvent(t: nat) returns (e: Option<Event>)
      requires Valid()
      modifies this
      ensures Valid() && SelectionKept() && outbox == old(outbox) && calls == old(calls)
      ensures commands == old(commands) && chatEnable == old(chatEnable) && targetmode == old(targetmode)
      ensures previousLink == old(previousLink) && timeStart == old(timeStart) && delegated == old(delegated)
      ensures Received(e, queue) == AcceptNext(old(queue), t, ignoreUsers)
      ensures e.Some? ==> e.value.uid.Some? && e.value.uid.value !in ignoreUsers
    {
      var q;
      AcceptNextConsumesPrefix(queue, t, ignoreUsers);
      e, q := WaitLoop(queue, t, ignoreUsers);
      queue := q;
    }

    /** `ask`: posts the question, then waits in one-unit steps until the asker answers or
        `t` units have passed, and returns the stripped text of the event it ended with; with
        no event at all it says so and returns `''`. */
    method Ask(sender: string, question: string, t: int) returns (answer: string)
      requires Valid()
      modifies this
      ensures Valid() && SelectionKept() && calls == old(calls)
      ensures commands == old(commands) && chatEnable == old(chatEnable) && targetmode == old(targetmode)
      ensures previousLink == old(previousLink) && timeStart == old(timeStart) && delegated == old(delegated)
      ensures var r := AskLoop(old(queue), sender, old(queue.clock) + t, ignoreUsers, None);
        && queue == r.queue && answer == Answer(r)
        && outbox == old(outbox) + [Posted(question + AskSuffix, None, false)]
                    + (if r.event.None? then [Posted(NoAction, None, false)] else [])
    {
      var q0 := queue;
      ghost var out0 := outbox;
      var posted := Posted(question + AskSuffix, None, false);
      Info(question + AskSuffix);
      assert outbox == out0 + [posted];
      var event, q := AskWaitLoop(q0, sender, q0.clock + t, ignoreUsers);
      ghost var r := AskLoop(q0, sender, q0.clock + t, ignoreUsers, None);
      assert event == r.event && q == r.queue;
      queue := q;
      if event.None? {
        Info(NoAction);
        answer := "";
      } else {
        answer := Strip(event.value.msg);
        assert out0 + [posted] + [] == out0 + [posted];
      }
    }

    /** `confirm`: asks with the yes/no hint and answers whether the reply starts with "是". */
    method Confirm(sender: string, question: string, t: int) returns (yes: bool)
      requires Valid()
      modifies this
      ensures Valid() && SelectionKept() && calls == old(calls)
      ensures commands == old(commands) && chatEnable == old(chatEnable) && targetmode == old(targetmode)
      ensures previousLink == old(previousLink) && timeStart == old(timeStart) && delegated == old(delegated)
      ensures var r := AskLoop(old(queue), sender, old(queue.clock) + t, ignoreUsers, None);
        && queue == r.queue && (yes <==> StartsWith(Answer(r), Yes))
        && outbox == old(outbox) + [Posted(question + ConfirmSuffix + AskSuffix, None, false)]
                    + (if r.event.None? then [Posted(NoAction, None, false)] else [])
    {
      var answer := Ask(sender, question + ConfirmSuffix, t);
      yes := StartsWith(answer, Yes);
    }

    /** `cmd_chat`: without a chat service it reports so; an empty argument turns chat mode
        on and resets the service; with chat mode off it does nothing; otherwise it sends
        `name：text` to the service and posts the reply, or reports the failure. */
    method CmdChat(senderName: string, args: seq<string>, chat: string -> Reply<string>)
      requires Valid() && |args| >= 1
      modifies this
      ensures Valid() && SelectionKept()
      ensures commands == old(commands) && targetmode == old(targetmode) && previousLink == old(previousLink)
      ensures queue == old(queue) && timeStart == old(timeStart) && delegated == old(delegated)
      ensures ChatDone(senderName, args, chat)
    {
      if !chatConfigured {
        Error(ChatUnset);
        return;
      }
      if args[0] == "" {
        chatEnable := true;
        calls := calls + [ChatReset];
        Info(ChatOn);
        return;
      }
      if !chatEnable {
        return;
      }
      var prompt := senderName + ChatSeparator + args[0];
      calls := calls + [Chat(prompt)];
      match chat(prompt)
      case Err(m) =>
        Error(m);
      case Ok(d) =>
        Send(d, None, false);
    }

    /** `default`: a message no command matched goes, whole, to `cmd_chat`, and only in chat
        mode; there an empty message resets the service rather than being sent. */
    method Default(senderName: string, msg: string, chat: string -> Reply<string>)
      requires Valid()
      modifies this
      ensures Valid() && SelectionKept()
      ensures commands == old(commands) && targetmode == old(targetmode) && previousLink == old(previousLink)
      ensures queue == old(queue) && timeStart == old(timeStart) && delegated == old(delegated)
      ensures !old(chatEnable) ==> !chatEnable && outbox == old(outbox) && calls == old(calls)
      ensures old(chatEnable) && chatConfigured && msg != "" ==> calls == old(calls) + [Chat(senderName + ChatSeparator + msg)]
      ensures old(chatEnable) ==> ChatDone(senderName, [msg], chat)
    {
      if chatEnable {
        CmdChat(senderName, [msg], chat);
      }
    }

    /** `handle`: remembers the event's target mode, finds the first command with an alias the
        message starts with, and runs its handler on the arguments. */
    method Handle(e: Event, env: Env) returns (route: Route)
      requires Valid() && Healthy(backends, musicApi) && e.uid.Some?
      modifies this
      ensures Healthy(backends, musicApi)
      ensures Valid() && route == RouteOf(commands, handlers, e.msg)
      ensures targetmode == e.targetmode && commands == old(commands) && previousLink == old(previousLink)
      ensures queue == old(queue) && timeStart == old(timeStart)
      ensures apiOrder == old(apiOrder) && backends == old(backends)
      ensures currentMusicApi == old(currentMusicApi) && musicApi == old(musicApi)
      ensures (route.Default? && !old(chatEnable)) || route.NoHandler? ==>
        && chatEnable == old(chatEnable) && musicApis == old(musicApis)
        && outbox == old(outbox) && calls == old(calls) && delegated == old(delegated)
      ensures route.Dispatch? && route.command != "chat" && route.command != "set_priority" ==>
        && chatEnable == old(chatEnable) && musicApis == old(musicApis)
        && outbox == old(outbox) && calls == old(calls)
        && delegated == old(delegated) + [Delegation(route.command, route.args)]
      ensures !(route.Dispatch? && route.command == "set_priority") ==> musicApis == old(musicApis)
      ensures !route.Dispatch? || route.command == "chat" || route.command == "set_priority" ==> delegated == old(delegated)
      ensures route.Default? && old(chatEnable) ==> ChatDone(e.name, [e.msg], env.chat)
      ensures route.Dispatch? && route.command == "chat" ==> ChatDone(e.name, route.args, env.chat)
      ensures route.Dispatch? && route.command == "set_priority" ==> chatEnable == old(chatEnable) && PriorityDone(route.args)
    {
      targetmode := e.targetmode;
      route := Routing(commands, handlers, e.msg);
      Run(route, e.name, e.msg, env.chat);
    }

    /** Runs the handler a route names: an unmatched message goes to `Default`, a command
        without a handler is dropped, the chat and priority commands run here and any other
        handler is recorded in `delegated`. */
    method Run(route: Route, senderName: string, msg: string, chat: string -> Reply<string>)
      requires Valid() && (route.Dispatch? ==> |route.args| >= 1)
      modifies this
      ensures Valid() && commands == old(commands) && targetmode == old(targetmode) && previousLink == old(previousLink)
      ensures queue == old(queue) && timeStart == old(timeStart)
      ensures apiOrder == old(apiOrder) && backends == old(backends)
      ensures currentMusicApi == old(currentMusicApi) && musicApi == old(musicApi)
      ensures (route.Default? && !old(chatEnable)) || route.NoHandler? ==>
        && chatEnable == old(chatEnable) && musicApis == old(musicApis)
        && outbox == old(outbox) && calls == old(calls) && delegated == old(delegated)
      ensures route.Dispatch? && route.command != "chat" && route.command != "set_priority" ==>
        && chatEnable == old(chatEnable) && musicApis == old(musicApis)
        && outbox == old(outbox) && calls == old(calls)
        && delegated == old(delegated) + [Delegation(route.command, route.args)]
      ensures !(route.Dispatch? && route.command == "set_priority") ==> musicApis == old(musicApis)
      ensures !route.Dispatch? || route.command == "chat" || route.command == "set_priority" ==> delegated == old(delegated)
      ensures route.Default? && old(chatEnable) ==> ChatDone(senderName, [msg], chat)
      ensures route.Dispatch? && route.command == "chat" ==> ChatDone(senderName, route.args, chat)
      ensures route.Dispatch? && route.command == "set_priority" ==> chatEnable == old(chatEnable) && PriorityDone(route.args)
    {
      match route {
        case Default =>
          Default(senderName, msg, chat);
        case NoHandler(_) =>
        case Dispatch(name, args) =>
          if name == "chat" {
            CmdChat(senderName, args, chat);
          } else if name == "set_priority" {
            CmdSetPriority(args);
          } else {
            delegated := delegated + [Delegation(name, args)];
          }
      }
    }

    // -------------------------------------------------------------------------
    // Keeping the player in step

    /** What `play_now` does: nothing unless the elected backend has a song under its cursor
        and a link for it; then the player is told to play the link, and a refusal is
        reported. */
    function PlayNowEffect(env: Env): (seq<Call>, seq<Outgoing>)
      reads this, musicApi
      requires musicApi != null && musicApi.Valid()
    {
      var now := musicApi.Now();
      if !(now.succeed && now.data.Some? && now.data.value.Track?) then ([], [])
      else
        match env.songLink(now.data.value.song.id)
        case Err(_) => ([], [])
        case Ok(link) =>
          ([Play(link)], match env.play(link) case Ok(_) => [] case Err(m) => [Posted(m, Some("red"), true)])
    }

    method PlayNow(env: Env)
      requires Valid() && Healthy(backends, musicApi) && musicApi != null
      modifies this
      ensures Healthy(backends, musicApi)
      ensures Valid() && SelectionKept() && SessionKept()
      ensures calls == old(calls) + PlayNowEffect(env).0 && outbox == old(outbox) + PlayNowEffect(env).1
    {
      var now := musicApi.Now();
      if !now.succeed {
        return;
      }
      var song := now.data.value.song;
      match env.songLink(song.id)
      case Err(_) =>
        return;
      case Ok(link) =>
        calls := calls + [Play(link)];
        match env.play(link)
        case Ok(_) =>
        case Err(m) =>
          Error(m);
    }

    /** `update_play`: a failed status query is reported; a player that is not playing makes
        the elected backend move to its next song, which is then played; a playing player is
        left alone. */
    method UpdatePlay(env: Env)
      requires Valid() && Healthy(backends, musicApi) && musicApi != null
      modifies this, musicApi
      ensures Healthy(backends, musicApi)
      ensures Valid() && SelectionKept() && SessionKept()
      ensures musicApi.playlists == old(musicApi.playlists) && musicApi.order == old(musicApi.order)
      ensures env.isPlaying.Err? ==>
        && musicApi.currentIndex == old(musicApi.currentIndex) && calls == old(calls)
        && outbox == old(outbox) + [Posted(env.isPlaying.reason, Some("red"), true)]
      ensures env.isPlaying == Ok(true) ==>
        musicApi.currentIndex == old(musicApi.currentIndex) && calls == old(calls) && outbox == old(outbox)
      ensures env.isPlaying == Ok(false) ==>
        && musicApi.currentIndex ==
             (if CurrentListId in musicApi.playlists && |musicApi.playlists[CurrentListId].songs| > 0
              then Step(old(musicApi.currentIndex), 1, |musicApi.playlists[CurrentListId].songs|)
              else old(musicApi.currentIndex))
        && calls == old(calls) + PlayNowEffect(env).0 && outbox == old(outbox) + PlayNowEffect(env).1
    {
      match env.isPlaying
      case Err(m) =>
        Error(m);
      case Ok(playing) =>
        if !playing {
          var _ := musicApi.Next();
          PlayNow(env);
        }
    }

    /** `update_info`: when the player plays a link other than the last one announced and the
        backend has a song under its cursor, sets the description and the cover and records
        the link; otherwise nothing happens. */
    method UpdateInfo(env: Env)
      requires Valid() && Healthy(backends, musicApi) && musicApi != null
      modifies this
      ensures Healthy(backends, musicApi)
      ensures Valid() && SelectionKept() && outbox == old(outbox)
      ensures commands == old(commands) && chatEnable == old(chatEnable) && targetmode == old(targetmode)
      ensures queue == old(queue) && timeStart == old(timeStart) && delegated == old(delegated)
      ensures var now := musicApi.Now();
        var pushed := env.playingLink.Ok? && old(previousLink) != Some(env.playingLink.value) && now.succeed;
        && (pushed ==> previousLink == Some(env.playingLink.value) && calls == old(calls) + InfoCalls(now.data.value.song, env))
        && (!pushed ==> previousLink == old(previousLink) && calls == old(calls))
    {
      match env.playingLink
      case Err(_) =>
        return;
      case Ok(link) =>
        if previousLink == Some(link) {
          return;
        }
        var now := musicApi.Now();
        if !now.succeed {
          return;
        }
        calls := calls + InfoCalls(now.data.value.song, env);
        previousLink := Some(link);
    }

    /** `update`: nothing without an elected backend; otherwise `update_play` then
        `update_info`. */
    method Update(env: Env)
      requires Valid() && Healthy(backends, musicApi)
      modifies this, musicApi
      ensures Healthy(backends, musicApi)
      ensures Valid() && SelectionKept()
      ensures commands == old(commands) && chatEnable == old(chatEnable) && targetmode == old(targetmode)
      ensures queue == old(queue) && timeStart == old(timeStart) && delegated == old(delegated)
      ensures musicApi == null ==> previousLink == old(previousLink) && calls == old(calls) && outbox == old(outbox)
      ensures musicApi != null ==>
        && (env.isPlaying.Err? || env.isPlaying.value ==> musicApi.currentIndex == old(musicApi.currentIndex))
        && musicApi.playlists == old(musicApi.playlists)
        && (previousLink == old(previousLink) || (env.playingLink.Ok? && previousLink == Some(env.playingLink.value)))
    {
      if musicApi == null {
        return;
      }
      UpdatePlay(env);
      UpdateInfo(env);
    }

    /** `standby`: re-runs the election and, if chat mode was on, turns it off with a
        goodbye. */
    method Standby(available: string -> bool)
      requires Valid() && Healthy(backends, musicApi)
      modifies this
      ensures Healthy(backends, musicApi)
      ensures Valid() && Elected(available) && !chatEnable
      ensures commands == old(commands) && targetmode == old(targetmode) && previousLink == old(previousLink)
      ensures queue == old(queue) && timeStart == old(timeStart) && delegated == old(delegated)
      ensures calls == old(calls)
      ensures outbox == old(outbox) + (if old(chatEnable) then [Posted(Goodbye, None, false)] else [])
    {
      UpdateMusicApi(available);
      LeaveChat();
    }

    /** The end of `standby`: chat mode, if on, is turned off with a goodbye. */
    method LeaveChat()
      requires Valid()
      modifies this
      ensures Valid() && SelectionKept() && !chatEnable
      ensures commands == old(commands) && targetmode == old(targetmode) && previousLink == old(previousLink)
      ensures queue == old(queue) && timeStart == old(timeStart) && delegated == old(delegated)
      ensures calls == old(calls)
      ensures outbox == old(outbox) + (if old(chatEnable) then [Posted(Goodbye, None, false)] else [])
    {
      if chatEnable {
        chatEnable := false;
        Send(Goodbye, None, false);
      }
    }

    /** One turn of `listen`: wait `interval` for an event; an event restarts the inactivity
        timer and is handled, a timeout brings the player up to date; then, when more than
        `timeout` has passed since the timer started, the timer restarts and the bot stands
        by. */
    method ListenTick(env: Env) returns (standby: bool)
      requires Valid() && Healthy(backends, musicApi)
      modifies this, musicApi
      ensures Healthy(backends, musicApi)
      ensures Valid()
      ensures var x := AcceptNext(old(queue), interval, ignoreUsers);
        && queue == x.queue
        && (x.event.Some? ==> !standby && timeStart == queue.clock)
        && (x.event.None? ==> (standby <==> queue.clock - old(timeStart) > timeout))
      ensures standby ==> !chatEnable && timeStart == queue.clock
      ensures queue.clock - timeStart <= timeout
    {
      var e := Serve(env);
      standby := queue.clock - timeStart > timeout;
      if standby {
        timeStart := queue.clock;
        Standby(env.available);
      }
    }

    /** The first half of a turn of `listen`: an accepted event restarts the timer and is
        handled; a timeout brings the player up to date. */
    method Serve(env: Env) returns (e: Option<Event>)
      requires Valid() && Healthy(backends, musicApi)
      modifies this, musicApi
      ensures Healthy(backends, musicApi)
      ensures Valid()
      ensures var x := AcceptNext(old(queue), interval, ignoreUsers);
        && queue == x.queue && e == x.event
        && timeStart == (if e.Some? then queue.clock else old(timeStart))
    {
      e := WaitEvent(interval);
      if e.Some? {
        timeStart := queue.clock;
        var _ := Handle(e.value, env);
      } else {
        Update(env);
      }
    }
  }
}
