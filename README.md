# ts3MusicBot, modelled in Dafny

This project models the decision logic and the in-memory data of ts3MusicBot, a TeamSpeak 3
chat bot that plays music through an audio player, chats through a language model and runs a
small pet game. Two generations of the bot are modelled: the current `TS3Bot` and the first
`AudioBot`.

- **Current bot** (`TS3Bot`). It reads text messages from the chat server. It routes each one
  through an ordered table of commands by alias prefix, then strips the alias's characters,
  trims and splits on single spaces to get the arguments. It keeps a table of music backends
  (priority, last probe result) and elects the best available one. It keeps the audio player
  in step with the elected backend's play cursor. It asks questions and waits for answers,
  and an inactivity timer turns chat mode off.
- **Playlist store** (`MusicApi`, shared by every backend). It is a dict of named playlists.
  The special list `"current"` is played, and a cursor gives the song under way. Every
  operation answers with a `BaseApiResponse` (`succeed`, `reason`, `data`). The `api`
  wrapper turns an escaping exception into a failure.
- **Pet games** (the current `Pet`/`PetApi` and the first `Pet.py`). Each pet has food,
  feeding and level-up counters. The game keeps a table of pets by owner and a queue of pets
  waiting for a battle, whose text account is parsed to find the winner.
- **First bot** (`AudioBot`). It has its own alias table and a turn-counting inactivity
  timer. It waits once for answers, finds a unique name for a saved playlist, and downloads
  a playlist in pages of twenty.

## How it is modelled

- **Collaborators become inputs.** The chat server, the audio player, the music backends'
  catalogues, the chat service and the language model are not modelled. Their answers are
  parameters:
  - the `Env` and `LegacyEnv` records;
  - `fetch` functions;
  - `Option` values for what the language model produced.
- **Time is an integer clock.** The chat server is a queue of events with integer arrival
  times (`Events`). `wait_for_event(timeout)` hands over the next event when it arrives
  within the timeout; otherwise time advances by the timeout.
- **Pet times are integer microseconds.** One second is `1_000_000`; six hours is
  `21_600_000_000`.
- **Sending appends to logs.** What a bot sends is appended to `outbox`. Its calls to the
  player and to the chat service are appended to `calls`.
- **Only some handlers run.** Handlers other than `chat` and `set_priority` are recorded in
  `delegated`, with their arguments.
- **Python semantics are written out:**
  - `str.strip(chars)` strips a character set; `str.strip()` strips the characters
    `str.isspace()` accepts;
  - `str.split(' ')`, `str.startswith` and `int()` are modelled (see `PyStr`);
  - `list.pop(i)` accepts negative indices; `list.insert(i, x)` clamps its index;
  - `sorted(..., reverse=True)` is stable;
  - dicts iterate in insertion order, modelled as a key sequence beside the map;
  - `%` is non-negative for a positive divisor, as Dafny's `%` is.
- **Form follows the source.** Objects whose methods update their fields are classes:
  - `TS3Bot`, `AudioBot`;
  - `MusicApi`;
  - `Pet`, `PetApi`;
  - `LegacyPet`, `LegacyPetApi`.

  Their methods are specified against pure functions of the old state. The source's loops
  are methods with loops, each proved to compute a specification function:
  - the waits, the probe, the election scan and the command registration (`BotLoops`);
  - the command search (`Router.FindCommand`);
  - the unique playlist name, the page download and `listen` (`LegacyBot`).

## Model

| member | source | states |
|---|---|---|
| BaseApi.Bare | apis/BaseApi.py:7-10 | a record built with only `succeed` has `reason` and `data` both `None` |
| BaseApi.FactoriesAreDistinguishable | apis/BaseApi.py:12-18 | `success(d)` has `succeed` true, reason "Success" and `data == d`; `failure(r)` has `succeed` false, `reason == r` and no data; the two never coincide |
| BaseApi.ProducedIsFactoryResult | apis/BaseApi.py:12-18 | a record is one the factories build exactly when it equals `success` of its data or `failure` of its reason |
| BaseApi.FromReply | apis/BaseApi.py:12-18 | a collaborator's answer becomes a factory-built record that succeeds iff the answer is a value, carrying that value or that reason |
| BaseApi.ReplyRoundTrip | apis/BaseApi.py:12-18 | converting an answer to a record and back gives the answer back |
| MusicData.BuildSong | apis/muiscApi/data.py:13-18 | a `Song` is built iff `link`, `id`, `name` and `singers` are all given, with exactly those fields and the optional `album` (default `None`); otherwise the missing field is named |
| MusicData.BuildSongFromFields | apis/muiscApi/data.py:13-18 | every song is rebuilt unchanged from its own fields |
| MusicData.SongWithoutLinkIsRefused | apis/muiscApi/data.py:14 | a song without `link` is refused with the field `link`, whatever else is given |
| MusicData.SingerNames | TS3Bot.py:281 | the singers joined with single spaces: empty for no singer, the name itself for one |
| MusicData.Names | TS3Bot.py:281 | the list of the singers' names, in order |
| MusicData.SingerNamesSplit | TS3Bot.py:281 | when no name contains a space, splitting the joined text on spaces gives back the names |
| Commands.FromDict | data_structures/Command.py:7-10 | `Command(**d)` succeeds iff `command` is a string and `alias` a list (and `help`, `example` have the right kind when present); `help` defaults to `''`, `example` to `[]`, other keys are ignored |
| Commands.DictRoundTrip | data_structures/Command.py:7-10 | every command is rebuilt unchanged from its dictionary |
| Commands.ExamplesKeyIsIgnored | TS3Bot.py:22-23 | a dictionary with `examples` but no `example` key yields a command with no examples, the same as without the key |
| Commands.HelpExamples | TS3Bot.py:510-513 | the help lists the command's examples, or its aliases when it has none |
| Commands.ShippedTableIsServed | TS3Bot.py:22-71 | every command of the shipped table names a `cmd_` method of the bot |
| Commands.LegacyTableIsServed | bot.py:22-44 | every command of the first bot's table names a `cmd_` method of that bot |
| Commands.ShippedHelpListsAliases | TS3Bot.py:22-71 | since the shipped dictionaries spell the key `examples`, every shipped command's help lists its aliases |
| PyStr.StartsWithIsSlicePrefix | TS3Bot.py:313 | `s.startswith(p)` iff `p` is the slice `s[:len(p)]` |
| PyStr.StartsWithTransitive | TS3Bot.py:313 | starting with `p`, where `p` starts with `q`, means starting with `q` |
| PyStr.StartsWithDistinctHeads | TS3Bot.py:313 | no string starts with two non-empty strings whose first characters differ |
| PyStr.StripBounds | TS3Bot.py:322 | `strip` keeps a slice with only dropped characters outside it and a kept character at each end |
| PyStr.StripKeepsClean | TS3Bot.py:322 | a string that neither starts nor ends with a dropped character is kept whole |
| PyStr.StripIdempotent | TS3Bot.py:322 | stripping twice removes nothing more than stripping once |
| PyStr.StripAllDropped | TS3Bot.py:322 | a string made only of dropped characters strips to `''` |
| PyStr.StripCharsAfterPrefix | TS3Bot.py:322 | `(p + r).strip(chars)` is `r` when `p` is made of characters of `chars` and `r` neither starts nor ends with one |
| PyStr.Split | TS3Bot.py:322 | `s.split(sep)` is never empty and no piece contains the separator |
| PyStr.JoinSplit | apis/petApi/PetApi.py:172 | joining the pieces of a split with the separator gives the string back |
| PyStr.SplitJoin | apis/petApi/PetApi.py:172 | splitting a join of separator-free pieces gives the pieces back |
| PyStr.SplitTwoWords | TS3Bot.py:322 | a string with one space splits into the two words around it |
| PyStr.StringWithoutSepIsOnePiece | TS3Bot.py:322 | a string without the separator splits into itself alone |
| PyStr.NatToString | TS3Bot.py:463 | `str(n)` is a non-empty run of decimal digits |
| PyStr.ParseIntToString | TS3Bot.py:463 | `int(str(n)) == n` for every integer |
| PyStr.IntToStringInjective | TS3Bot.py:463 | distinct integers render differently |
| Router.FirstAliasIsFirstPrefix | TS3Bot.py:312-317 | the alias search returns the first alias the message starts with, and nothing iff it starts with none |
| Router.FirstAliasAt | TS3Bot.py:312-317 | when the `j`-th alias is the first prefix of the message, the search stops at `j` |
| Router.LookupFromFindsFirstMatch | TS3Bot.py:311-319 | the command search returns the first command with a matching alias, and within it the first such alias; nothing iff no command matches |
| Router.FindCommand | TS3Bot.py:309-319 | the nested loops over commands and aliases, leaving both at the first match, compute the reference search |
| Router.Args | TS3Bot.py:322 | `msg.strip(alias).strip().split(' ')` has at least one piece and no piece contains a space |
| Router.RouteOf | TS3Bot.py:319-328 | a message goes to `default` iff no command matches; a matched command is dispatched with at least one argument iff it has a handler, and is dropped otherwise |
| Router.Routing | TS3Bot.py:309-328 | the dispatch step of `handle` (search, then handler lookup) computes `RouteOf` |
| Router.EarlierCommandsWin | TS3Bot.py:311-319 | a message starting with an alias of command `i` is routed to command `i` or an earlier one |
| Router.ArgumentOfAliasCharactersIsLost | TS3Bot.py:322 | an argument made only of characters of the alias is stripped away with it, leaving `['']` |
| Router.ArgsAfterAlias | TS3Bot.py:322 | when the text after the alias neither starts nor ends with an alias character or whitespace, the arguments are that text split on single spaces |
| Router.ShadowedCommandIsUnreachable | TS3Bot.py:311-319 | a command each of whose aliases starts with an alias of an earlier command is never reached |
| Router.ShadowedAlias | TS3Bot.py:311-319 | a message through an alias that extends an earlier command's alias goes to that earlier command or before |
| Router.AddIdItemListIsUnreachable | TS3Bot.py:39-42 | in the shipped table `add_id_item_list` is never reached, because `add_item_list`'s alias "歌单添加" comes first and is its prefix |
| Router.AddIdItemMessageKeepsIdMarker | TS3Bot.py:39-42 | the message "歌单添加ID0 1" is routed exactly to `Dispatch("add_item_list", ["ID0", "1"])`: the "ID" marker stays in the first argument |
| Router.PrefixRoutesTo | TS3Bot.py:319-322 | a message that starts with a word clashing with every alias of the earlier commands, and with the aliases before alias `j` of command `i`, is looked up as alias `j` of command `i` when that alias is a prefix of the word |
| Router.RouteOfHit | TS3Bot.py:319-328 | a message looked up as alias `a` of a command that has a handler is dispatched to that command with the words after `a` as arguments |
| Router.PetDeleteFirstAliasIsShadowed | TS3Bot.py:53-59 | every message starting with "删除宠物" is looked up exactly as alias "删除" of command 22 and dispatched to `remove_item_current` with the words after "删除", never to `pet_delete` (command 26) |
| Router.LegacyPlayIdRoutesToAddId | bot.py:22 | in the first bot's table every message starting with "播放ID" goes to `add_id`, with what follows the alias as arguments |
| Router.LegacyPlayListBeatsPlay | bot.py:34-37 | in the first bot's table every message starting with "播放歌单" is dispatched exactly to `play_list` (command 12) with the words after "播放歌单", never to the later `add` entry whose alias "播放" it also starts with |
| DictOrder.Put | TS3Bot.py:150-153 | after `d[k] = v` a new key is last and an existing key keeps its place; no key is duplicated |
| DictOrder.Drop | apis/muiscApi/MusicApi.py:101 | after `d.pop(k)` the key is gone, every other key is still there, and nothing is added |
| DictOrder.DropDistributes | apis/muiscApi/MusicApi.py:101 | popping a key from two joined orders pops it from each part |
| DictOrder.DropKeepsRelativeOrder | apis/muiscApi/MusicApi.py:101 | popping a key takes it out of its place and leaves the keys before it and after it in their order (`Drop(a + [k] + b, k) == a + b`) |
| DictOrder.PutTracks | TS3Bot.py:150-153 | assigning a key keeps the key order in step with the dict's keys |
| DictOrder.DropTracks | apis/muiscApi/MusicApi.py:101 | popping a key keeps the key order in step with the dict's keys |
| DictOrder.DropUndoesPut | apis/muiscApi/MusicApi.py:63 | removing a key just added restores the previous order |
| DictOrder.PutAfterDropMovesToEnd | apis/muiscApi/MusicApi.py:101 | re-adding a removed key puts it last |
| PyList.PopIndex | apis/muiscApi/MusicApi.py:120 | `pop(i)` succeeds iff `-len <= i < len`, and removes position `i % len` |
| PyList.RemoveAt | apis/muiscApi/MusicApi.py:120 | removing one element leaves one fewer and loses only that element |
| PyList.ClampIndex | apis/muiscApi/MusicApi.py:131 | `insert(i, x)` puts `x` at `i`, at `i + len` for a negative `i`, and clamps anything outside to the nearest end |
| PyList.InsertAt | apis/muiscApi/MusicApi.py:131 | `insert` adds exactly `x`, at the clamped position |
| PyList.PopUndoesInsert | apis/muiscApi/MusicApi.py:131 | popping the position an insert used gives the list back |
| PyList.InsertAtMinusOne | apis/muiscApi/MusicApi.py:192 | `insert(-1, x)` puts `x` just before the last element |
| PyList.PopMinusOneIsLast | apis/muiscApi/MusicApi.py:120 | `pop(-1)` removes the last element |
| MusicApiModel.Step | apis/muiscApi/MusicApi.py:218 | the cursor after moving by `delta` with Python's `%` is in `[0, len)`, and wraps at both ends |
| MusicApiModel.NextFromNotStartedIsFirst | apis/muiscApi/MusicApi.py:218 | `next` from -1 goes to song 0 |
| MusicApiModel.StepWrapsAround | apis/muiscApi/MusicApi.py:218-225 | `next` from the last song goes to the first, `previous` from the first to the last |
| MusicApiModel.PreviousUndoesNext | apis/muiscApi/MusicApi.py:218-225 | on a cursor inside the list, `previous` undoes `next` and `next` undoes `previous` |
| MusicApiModel.PreviousFromNotStartedSkipsLast | apis/muiscApi/MusicApi.py:225 | `previous` from -1 goes to the song before the last, not to the last |
| MusicApiModel.MusicApi.constructor | apis/muiscApi/MusicApi.py:31-47 | a new store holds only the empty `"current"` list, and the cursor is -1 |
| MusicApiModel.MusicApi.ListShow | apis/muiscApi/MusicApi.py:83-87 | succeeds iff the id exists, with that playlist; otherwise fails with "歌单未找到。" |
| MusicApiModel.MusicApi.ListList | apis/muiscApi/MusicApi.py:89-95 | every list except `"current"`, in insertion order; fails when there is none, and reports the `KeyError` when `"current"` is gone |
| MusicApiModel.MusicApi.IsListEmpty | apis/muiscApi/MusicApi.py:145-151 | succeeds iff the id exists, answering whether that list has no songs |
| MusicApiModel.MusicApi.IsListCreated | apis/muiscApi/MusicApi.py:153-157 | never fails; answers whether the id is taken |
| MusicApiModel.MusicApi.CurrentShow | apis/muiscApi/MusicApi.py:206-208 | succeeds iff `"current"` exists |
| MusicApiModel.MusicApi.IsCurrentEmpty | apis/muiscApi/MusicApi.py:210-212 | succeeds iff `"current"` exists |
| MusicApiModel.MusicApi.CurrentIsEmpty | apis/muiscApi/MusicApi.py:216 | the cursor operations' test holds iff `"current"` exists and has no songs |
| MusicApiModel.MusicApi.Now | apis/muiscApi/MusicApi.py:241-248 | succeeds iff the cursor is on a song of `"current"`, with that song; fails with "当前歌单为空。" on an empty list, "还未开始播放。" at -1, and the `UnknownError` the `api` wrapper (lines 18-28) makes for a missing list or a stale cursor |
| MusicApiModel.MusicApi.ListCreate | apis/muiscApi/MusicApi.py:59-65 | an existing id is refused with nothing changed; otherwise an empty list is added under it, last in order, and the cursor stays |
| MusicApiModel.MusicApi.ListCopy | apis/muiscApi/MusicApi.py:75-81 | an unknown source fails with nothing changed; otherwise the destination gets the source's songs under its own id |
| MusicApiModel.MusicApi.ListPlay | apis/muiscApi/MusicApi.py:67-73 | an unknown id fails with nothing changed; otherwise `"current"` gets that list's songs and the cursor is 0, even for an empty list |
| MusicApiModel.MusicApi.ListDelete | apis/muiscApi/MusicApi.py:97-103 | an unknown id fails with nothing changed; otherwise exactly that key is removed, from the order too |
| MusicApiModel.MusicApi.ListAdd | apis/muiscApi/MusicApi.py:105-113 | the songs are appended to the named list only; the order and the cursor stay |
| MusicApiModel.MusicApi.ListRemove | apis/muiscApi/MusicApi.py:115-124 | Python `pop` semantics: a negative index counts from the end, an index outside fails with "索引超出范围。" and nothing changed; the cursor is not adjusted |
| MusicApiModel.MusicApi.ListInsert | apis/muiscApi/MusicApi.py:126-135 | fails only for an unknown list (the index is clamped); the cursor is not adjusted |
| MusicApiModel.MusicApi.ListClear | apis/muiscApi/MusicApi.py:137-143 | the named list becomes empty; an unknown id fails with nothing changed |
| MusicApiModel.MusicApi.CurrentInsert | apis/muiscApi/MusicApi.py:190-192 | inserts into `"current"` at the cursor's position, clamped |
| MusicApiModel.MusicApi.CurrentAdd | apis/muiscApi/MusicApi.py:194-196 | appends one song to `"current"` |
| MusicApiModel.MusicApi.CurrentRemove | apis/muiscApi/MusicApi.py:198-200 | `pop(index)` on `"current"`, with the same failures as `list_remove` |
| MusicApiModel.MusicApi.CurrentCopy | apis/muiscApi/MusicApi.py:202-204 | `"current"` gets a copy of the named list's songs |
| MusicApiModel.MusicApi.Clear | apis/muiscApi/MusicApi.py:237-240 | empties `"current"` and always succeeds; the cursor is not reset |
| MusicApiModel.MusicApi.Move | apis/muiscApi/MusicApi.py:214-226 | on an empty `"current"` fails with the cursor unchanged; otherwise the cursor moves with wrap-around and the answer is `now()` |
| MusicApiModel.MusicApi.Next | apis/muiscApi/MusicApi.py:214-219 | fails with "当前歌单为空。" and the cursor unchanged on an empty list; otherwise `index := (index + 1) % len` and the new song is returned |
| MusicApiModel.MusicApi.Previous | apis/muiscApi/MusicApi.py:221-226 | the same with `index := (index - 1) % len` |
| MusicApiModel.MusicApi.Jump | apis/muiscApi/MusicApi.py:228-235 | fails with the cursor unchanged on an empty list or an index outside `[0, len)`; otherwise the cursor is the index and that song is returned |
| MusicApiModel.MusicApi.Shuffle | apis/muiscApi/MusicApi.py:250-255 | on a non-empty `"current"` the songs are replaced by the given permutation; on an empty one it fails with nothing changed |
| Election.Insert | TS3Bot.py:179 | one insertion step of the stable sort keeps every entry and adds one |
| Election.InsertKeepsSorted | TS3Bot.py:179 | inserting into a list sorted by priority, highest first, keeps it sorted |
| Election.SortDesc | TS3Bot.py:179 | `sorted(..., reverse=True)` is a permutation sorted by priority, highest first |
| Election.FirstAccessible | TS3Bot.py:180-186 | the scan finds an accessible entry, and none iff no entry is accessible |
| Election.Best | TS3Bot.py:177-187 | the reference choice: an accessible entry of the highest priority among the accessible ones, none iff none is accessible |
| Election.BestIsEarliest | TS3Bot.py:179 | on a tie the reference choice is the earliest in insertion order |
| Election.FirstAccessibleInsert | TS3Bot.py:179-186 | inserting an entry into a sorted list changes its first accessible entry only to put the new entry there |
| Election.SortedElectionIsBest | TS3Bot.py:177-187 | the first accessible entry after the stable sort is exactly the reference choice |
| BotRules.Format | TS3Bot.py:331-341 | the colour tags wrap the message, and the bold tags wrap that |
| BotRules.FormatIsInjective | TS3Bot.py:331-341 | under the same wrapping two different messages are sent as different texts |
| BotRules.ReportWrappings | TS3Bot.py:343-353 | `error(m)` sends `[b][color=red]m[/color][/b]`, `success` the same in green, `warning` only bold, `info` the text as it is |
| BotRules.ProbeIsIdempotent | TS3Bot.py:167-175 | probing keeps every key, id and priority, sets each accessibility to its probe's answer, and probing twice is probing once |
| BotRules.RegisterKeepsTable | TS3Bot.py:150-153 | registering a backend keeps the table, its order and the backend objects consistent |
| BotRules.Items | TS3Bot.py:179 | `music_apis.items()` lists the table's entries in insertion order |
| BotRules.ItemsAreEntries | TS3Bot.py:179 | every listed entry is the table's entry under its own id |
| BotRules.ElectedId | TS3Bot.py:177-187 | the elected id is accessible and of the highest priority among the accessible ones; none iff none is accessible |
| BotRules.Converted | TS3Bot.py:155-165 | registration fails iff some dictionary does not describe a command, and appends at most one command per item |
| BotRules.DescribedTableIsRegistered | TS3Bot.py:155-165 | registering the dictionaries of a list of commands registers exactly those commands, in order |
| BotRules.RefusalKeepsEarlierCommands | TS3Bot.py:155-165 | a bad dictionary stops registration and keeps the commands appended before it |
| BotRules.NowPlaying | TS3Bot.py:282 | the description starts with "！！正在播放来自" and ends with the song's name |
| BotLoops.WaitLoop | TS3Bot.py:110-120 | the loop of `wait_event` computes `AcceptNext` |
| BotLoops.AskWaitLoop | TS3Bot.py:408-414 | the waiting loop of `ask` computes `AskLoop` |
| BotLoops.ProbeLoop | TS3Bot.py:167-175 | the loop of `check_apis_access` computes `Probed` and keeps the keys |
| BotLoops.ElectLoop | TS3Bot.py:179-186 | sorting stably then scanning for the first accessible entry yields the reference choice `Best` |
| BotLoops.Elect | TS3Bot.py:177-187 | the scan over the table's entries yields `ElectedId` |
| BotLoops.FirstAccessibleStep | TS3Bot.py:180-186 | the scan moves one entry at a time |
| BotLoops.RegisterLoop | TS3Bot.py:155-165 | the loop of `register_commands` computes `Converted` |
| BotLoops.ConvertedStep | TS3Bot.py:160-164 | registration moves one item at a time |
| Events.Receive | TS3Bot.py:113 | `wait_for_event(t)` hands over the first pending event iff it arrives within `t`, and otherwise times out with `t` elapsed |
| Events.AcceptNext | TS3Bot.py:110-120 | `wait_event` consumes events, returns an accepted one or times out after at least `t` |
| Events.AcceptNextConsumesPrefix | TS3Bot.py:110-120 | what `wait_event` consumes is a prefix of the queue: the events it drops have no sender or an ignored one, and it returns the first accepted event |
| Dialog.AskLoop | TS3Bot.py:408-414 | `ask`'s loop returns an event from someone other than the asker only once the deadline has passed |
| Dialog.AskLoopKeepsAnEvent | TS3Bot.py:408-416 | once any event has been handed over, `ask` returns an event |
| Dialog.AskLoopHandsOverReceived | TS3Bot.py:408-414 | what `ask` returns is an accepted event of the queue |
| Dialog.HandedOverFromSuffix | TS3Bot.py:408-414 | an event of a later part of the queue is an event of the queue |
| Dialog.AskLoopFindsEarlyEvent | TS3Bot.py:408-418 | `ask` comes back empty-handed only if no accepted event at all arrived before the deadline |
| Dialog.AcceptNextReachesAccepted | TS3Bot.py:410 | one `wait_event(timeout=1)` that does not reach a given accepted event stops short of it, in time and in the queue; one that hands an event over hands over that one or an earlier one |
| Dialog.AcceptNextBeforeDeadline | TS3Bot.py:408-410 | a wait started before the deadline, with nothing arriving exactly at it, consumes only arrivals before the deadline, and one that hands an event over ends before it |
| Dialog.AskLoopReturnsAskersReply | TS3Bot.py:408-412 | when an accepted event of the asker arrives before the deadline, `ask` returns exactly the first such event, whatever other events arrive before it |
| Dialog.AskLoopPassesTo | TS3Bot.py:408-414 | a step of the loop that times out or hands over someone else's event before the asker's reply leaves the result to the rest of the queue, which still holds that reply |
| Dialog.LastAcceptedSkips | TS3Bot.py:410-414 | events that are not accepted do not change the event `ask` falls back on |
| Dialog.AskLoopWithoutReplyKeepsLastEvent | TS3Bot.py:408-421 | when the asker does not reply before the deadline, `ask` ends with the last accepted event that arrived before the deadline (`LastAcceptedBefore`), or with none |
| TS3BotModel.RegisterKeepsHealthy | TS3Bot.py:150-153 | registering a consistent backend keeps every backend's store consistent |
| TS3BotModel.TS3Bot.constructor | TS3Bot.py:75-108 | a bot with no commands and no backend table, chat mode off, the ignore list, `sid`, `cid`, `targetmode` 3, `interval` 3 and `timeout` 60 |
| TS3BotModel.TS3Bot.Send | TS3Bot.py:331-341 | appends one message, to the server when the target mode is 3 and to the channel otherwise, wrapped as `Format` says; nothing else changes |
| TS3BotModel.TS3Bot.Success | TS3Bot.py:343-344 | sends the message bold in green |
| TS3BotModel.TS3Bot.Error | TS3Bot.py:346-347 | sends the message bold in red |
| TS3BotModel.TS3Bot.Info | TS3Bot.py:349-350 | sends the message as it is |
| TS3BotModel.TS3Bot.Warning | TS3Bot.py:352-353 | sends the message bold |
| TS3BotModel.TS3Bot.RegisterMusicApi | TS3Bot.py:150-153 | adds or replaces the entry with the priority and accessibility false; a new id goes last, a known one keeps its place; the election is unchanged |
| TS3BotModel.TS3Bot.RegisterCommands | TS3Bot.py:155-165 | appends the commands the items describe, in order, skipping other items; a bad dictionary stops it |
| TS3BotModel.TS3Bot.CheckApisAccess | TS3Bot.py:167-175 | every entry's accessibility becomes its probe's answer; nothing else changes |
| TS3BotModel.TS3Bot.ElectMusicApi | TS3Bot.py:179-187 | elects the best accessible entry, switching the backend object only when the id changes; with none accessible the election stays |
| TS3BotModel.TS3Bot.SwitchMusicApi | TS3Bot.py:181-184 | switches to the backend under the id only when it is not the elected id |
| TS3BotModel.TS3Bot.UpdateMusicApi | TS3Bot.py:177-187 | probes every backend, then elects from the probed table |
| TS3BotModel.TS3Bot.CmdSetPriority | TS3Bot.py:455-471 | `PriorityDone`: asks again for a missing id, priority or number; an unknown id is reported and the `KeyError` stops it with nothing changed; otherwise the priority is set and success announced |
| TS3BotModel.TS3Bot.WaitEvent | TS3Bot.py:110-120 | returns only events with a sender not in `ignore_users`, as `AcceptNext` says |
| TS3BotModel.TS3Bot.Ask | TS3Bot.py:403-421 | posts the question with " >", runs `AskLoop` from the queue (so the asker's first reply before the deadline wins, and otherwise the last accepted event before it, by the `Dialog` lemmas), returns the stripped text of that event, or says "未执行操作。" and returns `''` when no event came |
| TS3BotModel.TS3Bot.Confirm | TS3Bot.py:397-401 | asks with "[是/否]" and answers yes iff the answer starts with "是" |
| TS3BotModel.TS3Bot.CmdChat | TS3Bot.py:483-500 | `ChatDone`: reports a missing chat service; an empty argument turns chat mode on and resets the service; with chat mode off does nothing; otherwise sends `name：text` and posts the reply or reports the failure |
| TS3BotModel.TS3Bot.Default | TS3Bot.py:379-383 | an unmatched message does nothing unless chat mode is on; then it does what `cmd_chat` does with the whole message as its one argument (`ChatDone`): posts the reply or the failure, or, for an empty message, resets the service, or reports a missing chat service |
| TS3BotModel.TS3Bot.Handle | TS3Bot.py:301-329 | records the target mode, routes by `RouteOf`, and runs the handler: `ChatDone` for the chat command and for an unmatched message in chat mode, `PriorityDone` for `set_priority`, a recorded delegation for any other handler; without a handler, or unmatched with chat off, nothing else changes |
| TS3BotModel.TS3Bot.Run | TS3Bot.py:319-328 | runs the route: `default` (`ChatDone` on the whole message in chat mode, nothing otherwise), a dropped command, the chat handler (`ChatDone`), the priority handler (`PriorityDone`), or a recorded delegation |
| TS3BotModel.TS3Bot.PlayNow | TS3Bot.py:235-252 | plays the link of the song under the cursor when there is one, and reports a refusal of the player |
| TS3BotModel.TS3Bot.UpdatePlay | TS3Bot.py:254-263 | a failed status query is reported and nothing moves; a playing player is left alone; otherwise the cursor moves to the next song, which is played |
| TS3BotModel.TS3Bot.UpdateInfo | TS3Bot.py:265-284 | only for a link other than `previous_link` and a song under the cursor: sets the description and the cover (`''` when none) and records the link; otherwise nothing changes |
| TS3BotModel.TS3Bot.Update | TS3Bot.py:286-291 | nothing without an elected backend; the cursor moves only when the player is not playing; `previous_link` only becomes the playing link |
| TS3BotModel.TS3Bot.Standby | TS3Bot.py:293-299 | always re-runs the election; chat mode ends off, with one goodbye only if it was on |
| TS3BotModel.TS3Bot.LeaveChat | TS3Bot.py:296-298 | chat mode ends off, with one goodbye only if it was on |
| TS3BotModel.TS3Bot.ListenTick | TS3Bot.py:195-209 | an event restarts the timer and never triggers standby; after a timeout the bot stands by iff more than `timeout` has passed since the timer started, and then the timer restarts; the timer never lags more than `timeout` behind |
| TS3BotModel.TS3Bot.Serve | TS3Bot.py:196-205 | takes the next accepted event from the queue, restarting the timer and handling it, or brings the player up to date after a timeout |
| Pets.FeedResult | apis/petApi/Pet.py:24-36 | no food: `(False, "NoFood")`, nothing changed; under a second since the last feed: `(False, "Full")`; otherwise one food less and one feed more, or a level-up stored and the feeds reset once they reach `level + 1`; `last_feed` never moves; the counters stay sound |
| Pets.LevelUpResult | apis/petApi/Pet.py:38-43 | no stored level-up: `(False, "NoTimes")`, nothing changed; otherwise one level more and one stored level-up less |
| Pets.FeedsBelowThreshold | apis/petApi/Pet.py:30-31 | feeds below the level threshold take one food each and count one feed each |
| Pets.LevelUpTakesLevelPlusOneFeeds | apis/petApi/Pet.py:30-35 | a pet at level `L` with no feeds counted earns one level-up with exactly `L + 1` feeds, and its feed count restarts |
| Pets.FeedTimesLast | apis/petApi/Pet.py:24-36 | `n + 1` feeds are one feed after `n` |
| Pets.Pet.constructor | apis/petApi/Pet.py:9-22 | a new pet has level, upgrade times, food and feeds 0, was last fed at its creation and knows only the first skill |
| Pets.Pet.Feed | apis/petApi/Pet.py:24-36 | the pet and the answer are as `FeedResult` says, and the counters stay sound |
| Pets.Pet.Upgrade | apis/petApi/Pet.py:38-43 | the pet and the answer are as `LevelUpResult` says, and the counters stay sound |
| Pets.DigitRun | apis/petApi/PetApi.py:173 | the run of digits from a position, up to the first non-digit |
| Pets.FirstBracket | apis/petApi/PetApi.py:173 | the first position of a `[digits]` group, or none iff there is none |
| Pets.ReadBattle | apis/petApi/PetApi.py:171-178 | a result iff a `[digits]` group exists and its number is a queue position; the winner is that pet's owner and the rounds are the `|`-pieces without the last |
| Pets.ReadBattleOfAccount | apis/petApi/PetApi.py:167-175 | the account the model is asked for, `round|...|round|[n]`, is read back as exactly those rounds and the owner of pet `n` |
| Pets.NumberAfterPrefix | apis/petApi/PetApi.py:173 | after text without `[`, the first `[digits]` group is the one that follows and its number is read back |
| Pets.PetApi.Upgradable | apis/petApi/PetApi.py:198-201 | defined iff the owner has a pet, and true iff its stored level-ups are positive |
| Pets.PetApi.constructor | apis/petApi/PetApi.py:46-56 | no pets and an empty battle queue |
| Pets.PetApi.NewPet | apis/petApi/PetApi.py:82-91 | without a well-formed answer from the model nothing changes; otherwise a new pet is filed under the owner, replacing any earlier one |
| Pets.PetApi.DeletePet | apis/petApi/PetApi.py:93-96 | the owner's key is removed; an unknown owner is the `KeyError`, with nothing changed |
| Pets.PetApi.AddFoodPet | apis/petApi/PetApi.py:106-113 | that pet gets exactly one more food and no other pet changes |
| Pets.PetApi.FeedPet | apis/petApi/PetApi.py:121-124 | that pet is fed as `FeedResult` says and no other pet changes |
| Pets.PetApi.UpgradePet | apis/petApi/PetApi.py:148-156 | without a skill nothing changes; otherwise the skill is appended and the pet's `upgrade` runs, whatever it answers |
| Pets.PetApi.BattleAddPet | apis/petApi/PetApi.py:183-187 | the owner's pet joins the end of the queue unless already there, so no pet waits twice |
| Pets.PetApi.BattlePet | apis/petApi/PetApi.py:158-181 | no battle with an empty queue; a result read from the account empties the queue, and an account naming no waiting pet leaves it |
| Pets.Owners | apis/petApi/PetApi.py:174 | the owners of the queued pets, in queue order |
| LegacyPets.LegacyFeedResult | Pet.py:95-102 | no food: "NoFood"; under six hours since the last feed: "Full" with nothing changed; otherwise one food less and "Success"; food never goes negative |
| LegacyPets.FeedAgreesWithCurrentGame | Pet.py:95-102 | once six hours have passed, or with no food, the first game's feed and the current one's agree on success, food and refusal |
| LegacyPets.LegacyPet.constructor | Pet.py:80-91 | level 0, no food, last fed at creation, the one skill "逃跑" |
| LegacyPets.LegacyPet.Feed | Pet.py:95-102 | the food and the answer are as `LegacyFeedResult` says; level, `last_feed` and skills stay |
| LegacyPets.LegacyPet.Upgrade | Pet.py:104-106 | one level more, and the new level is the answer |
| LegacyPets.LegacyPetApi.constructor | Pet.py:25-34 | no pets |
| LegacyPets.LegacyPetApi.GetPet | Pet.py:41-64 | a failed model call gives no pet; a malformed answer raises before anything is stored; otherwise the new pet is filed under the owner, replacing any earlier one |
| LegacyPets.LegacyPetApi.Feed | Pet.py:66-67 | only looks the owner up: found iff the owner has a pet, and nothing changes |
| LegacyBot.LegacyAccept | bot.py:70-76 | the first bot's `wait_event` returns an event from a sender not ignored, times out, or raises on an event without a sender |
| LegacyBot.LegacyAcceptAgrees | bot.py:70-76 | while every event names its sender, the first bot's wait and the current bot's hand over the same event after the same waits |
| LegacyBot.LegacyWaitLoop | bot.py:70-76 | the loop of the first bot's `wait_event` computes `LegacyAccept` |
| LegacyBot.CandidateInjective | bot.py:494-501 | no name is tried twice |
| LegacyBot.Tried | bot.py:494-501 | the names tried so far |
| LegacyBot.NotTriedYet | bot.py:494-501 | the next name has not been tried |
| LegacyBot.NotTriedYetBelow | bot.py:494-501 | a later name is not among the earlier ones |
| LegacyBot.NewListId | bot.py:494-501 | the new list id is not an existing id, and it is the first of `name`, `name(1)`, `name(2)`, ... that is not |
| LegacyBot.Collect | bot.py:229-248 | a finished download holds at least the server's count of songs and starts with what was already gathered; the playing position is kept only for the current list; a failed request gives `None` |
| LegacyBot.CollectReadsWholeList | bot.py:229-248 | a server that pages through a list twenty at a time is read to the end: the download holds exactly that list |
| LegacyBot.GetListSongsInfo | bot.py:229-248 | the loop of `get_list_songs_info` computes `Collect` from offset 0 |
| LegacyBot.CountAfter | bot.py:110-113 | the timer goes off on the turn that takes the count past `timeout`, and the count then restarts at 0 |
| LegacyBot.TurnCount | bot.py:110-113 | one more turn moves the count on by one, and past the period restarts it with one more timeout |
| LegacyBot.AudioBot.constructor | bot.py:48-68 | chat mode off, `targetmode` 3, `sid` and `cid` 1, `timeout` 60 turns of one-unit waits, no link recorded, and the table `cmd_alias` |
| LegacyBot.AudioBot.Send | bot.py:186-194 | appends one message, in colour tags when a colour is given and never bold, to the server or the channel by target mode |
| LegacyBot.AudioBot.Update | bot.py:133-146 | for a playing link other than the last one recorded, sets the description and the cover of its song and records the link; a failed song lookup raises with nothing set |
| LegacyBot.AudioBot.Timeout | bot.py:148-152 | chat mode ends off, with one goodbye only if it was on |
| LegacyBot.AudioBot.CmdChat | bot.py:378-394 | `ChatDone`: reports a missing chat service; an empty argument turns chat mode on; otherwise forwards only in chat mode and only with at least two arguments, sending the first |
| LegacyBot.AudioBot.Handle | bot.py:154-184 | records the target mode, routes through `cmd_alias`; the chat command, and an unmatched message in chat mode, do what `ChatDone` says (the unmatched message as a single argument, so a non-empty one is never forwarded); any other handler is recorded as a delegation |
| LegacyBot.AudioBot.Run | bot.py:172-183 | runs the route: nothing, `cmd_chat` with the whole message in chat mode (`ChatDone` with one argument, so the service is reset on an empty message and never asked otherwise), a dropped command, the chat handler (`ChatDone`), or a recorded delegation |
| LegacyBot.AudioBot.WaitEvent | bot.py:70-76 | waits on the server's queue as `LegacyAccept` says |
| LegacyBot.AudioBot.Ask | bot.py:644-652 | posts the question with " >" and waits once; a timeout is announced and gives `''`, an event gives its stripped text, whoever sent it |
| LegacyBot.AudioBot.Confirm | bot.py:631-642 | posts the question with " [是/否]" and waits once; yes iff an event came whose text starts with "是"; a timeout is announced |
| LegacyBot.AudioBot.ListenTick | bot.py:101-113 | every turn moves the counter on, event or not; past `timeout` it restarts and chat mode is off |
| LegacyBot.AudioBot.Listen | bot.py:94-113 | after `n` turns the timer has gone off `n / (timeout + 1)` times and the counter is `n % (timeout + 1)` |

## Left out

- The chat server transport (`connect`, `run`, keep-alives, `servernotifyregister`, `follow`,
  `get_clid_from_uid` and its kin) is not modelled. The server is an event queue, and
  `follow`'s outcome is an input of the first bot's turn.
- The HTTP clients of the audio player and of the music backends are not modelled. Their
  answers are inputs (`Env`, `LegacyEnv`, `fetch`).
- The language model and the speech service are not modelled. The pet description, skill
  and battle account they produce are inputs.
- Persistence is not modelled: the playlist JSON file and the pickled pet tables. Only the
  in-memory effect is.
- `init_playlists` is modelled only for a missing file (a store with just `"current"`),
  because loading the file is I/O.
- Wall-clock time is an integer clock. `datetime`, `pytz` and `time.sleep` are not modelled.
- Dialog.AskLoopWithoutReplyKeepsLastEvent: assumes no event arrives exactly at the
  deadline. On the integer clock, an event that is not accepted and arrives exactly then
  lets the one-unit `wait_event` keep waiting past the deadline and hand over a later
  event. With the source's real-valued `time.time()` such a tie has probability zero.
- The handlers other than `cmd_chat` and `cmd_set_priority` (playback, search, playlist,
  pet, help and display commands) are recorded as delegations, not run. They are rendering
  around the operations the model does cover. `cmd_update_apis` is `UpdateMusicApi`.
- The exception types the `api` wrapper and `listen` catch are not modelled. An escaping
  exception ends that step of the model, and the wrapper's text is modelled only for the two
  exceptions a store can raise on its own: a missing `"current"` and a stale cursor.
- MusicData.BuildSong: only models missing fields, not pydantic's type checks of present
  ones.
- PyStr.ParseInt: accepts ASCII digits only, where Python's `int()` also accepts other
  Unicode decimal digits.
- PyStr.IsSpace: covers the characters `str.isspace()` accepts as listed in the Unicode
  White_Space property, without the Unicode database itself.
- LegacyBot.GetListSongsInfo: takes a bound on the number of requests (`fuel`), because a
  server whose pages never reach its count keeps the source looping forever. The bound's
  outcome is `Unfinished`, and `CollectReadsWholeList` shows a large enough bound reads a
  well-behaved server to the end.
- LegacyBot.AudioBot.Update: does not model the `IndexError` of a link without `ID=digits&`.
  The song lookup's failure stands for every failure between the link and the song.
- LegacyBot.AudioBot.CmdChat: takes the chat service's answer as a string, because the
  first bot sends whatever the service returns.
- LegacyBot.AudioBot.ListenTick: states the counter and the timeout outcome, not the
  effects of the turn's `update`, `follow` and `handle`. Those are stated by
  `LegacyBot.AudioBot.Update`, `LegacyBot.AudioBot.Handle` and the wait.
- TS3BotModel.TS3Bot.RegisterMusicApi: does not ensure the backends stay consistent.
  `TS3BotModel.RegisterKeepsHealthy` is that statement, for the caller.
- TS3BotModel.TS3Bot.Update: states the cursor and `previous_link` outcomes in outline.
  The exact effects are in `UpdatePlay` and `UpdateInfo`, which it runs in turn.
- TS3BotModel.TS3Bot.ListenTick: does not model the generic `except Exception` of
  `listen`. A handler failure is not modelled.
- `MusicApi.shuffle`'s randomness is an input: the new arrangement, a permutation of the
  songs.
- Legacy `Pet.display_info` is left out, because it only prints, and it reads a field the
  pet does not have.
