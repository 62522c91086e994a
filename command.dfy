/** The command record (`Command`), how a command dictionary becomes one, and the
    two command tables the bots ship with. */
module Commands {
  import opened Wrappers

  /** `help` defaults to the empty string and `example` to the empty list. */
  datatype Command = Command(command: string, alias: seq<string>, help: string := "", example: seq<string> := [])

  /** A value in a command dictionary: a string or a list of strings. */
  datatype Field = Str(s: string) | StrList(l: seq<string>)

  /** Why a dictionary was refused: a required key is absent, or a key holds the wrong kind
      of value. */
  datatype Refusal = Missing(key: string) | WrongType(key: string)

  /** `Command(**d)`: `command` and `alias` are required, `help` and `example` are optional,
      and any other key (such as `examples`) is ignored. */
  function FromDict(d: map<string, Field>): (r: Result)
    ensures r.Built? <==>
      && "command" in d && d["command"].Str?
      && "alias" in d && d["alias"].StrList?
      && ("help" in d ==> d["help"].Str?)
      && ("example" in d ==> d["example"].StrList?)
    ensures r.Built? ==>
      && r.cmd.command == d["command"].s
      && r.cmd.alias == d["alias"].l
      && r.cmd.help == (if "help" in d then d["help"].s else "")
      && r.cmd.example == (if "example" in d then d["example"].l else [])
  {
    if "command" !in d then Refused(Missing("command"))
    else if !d["command"].Str? then Refused(WrongType("command"))
    else if "alias" !in d then Refused(Missing("alias"))
    else if !d["alias"].StrList? then Refused(WrongType("alias"))
    else if "help" in d && !d["help"].Str? then Refused(WrongType("help"))
    else if "example" in d && !d["example"].StrList? then Refused(WrongType("example"))
    else
      var help := if "help" in d then d["help"].s else "";
      var example := if "example" in d then d["example"].l else [];
      Built(Command(d["command"].s, d["alias"].l, help, example))
  }

  datatype Result = Built(cmd: Command) | Refused(why: Refusal)

  /** The dictionary that describes a command. */
  function ToDict(c: Command): map<string, Field> {
    map["command" := Str(c.command), "alias" := StrList(c.alias),
        "help" := Str(c.help), "example" := StrList(c.example)]
  }

  /** Every command survives the trip through its dictionary. */
  lemma DictRoundTrip(c: Command)
    ensures FromDict(ToDict(c)) == Built(c)
  {
  }

  /** A dictionary that spells the examples key `examples` (as both shipped tables do) and
      has no `example` key yields a command with no examples. */
  lemma ExamplesKeyIsIgnored(d: map<string, Field>)
    requires "example" !in d
    requires FromDict(d).Built?
    ensures FromDict(d).cmd.example == []
    ensures FromDict(d - {"examples"}) == FromDict(d)
  {
  }

  /** The examples the help text lists: the command's examples, or its aliases when it has
      none. */
  function HelpExamples(c: Command): (r: seq<string>)
    ensures c.example != [] ==> r == c.example
    ensures c.example == [] ==> r == c.alias
  {
    if c.example != [] then c.example else c.alias
  }

  /** The commands of the current bot, in registration order: a transcription of the command
      dictionaries, each taken as `FromDict` takes it. Those dictionaries spell their example
      key `examples`, which `FromDict` ignores (`ExamplesKeyIsIgnored`), so every `example`
      here is empty and the example strings themselves are not transcribed. */
  function ShippedTable(): seq<Command> {
    [
      Command("play_id", ["播放ID"], "添加对应ID歌曲到当前歌单并播放"),
      Command("add_id", ["添加ID"], "添加对应ID歌曲到当前歌单"),
      Command("play", ["我想听", "我要听"], "自动搜索歌曲并添加到当前歌单"),
      Command("help", ["帮助", "怎么玩"], "显示帮助手册"),
      Command("chat", ["聊天"], "喵~~"),
      Command("search", ["搜索"], "搜索曲库歌曲"),
      Command("pause", ["暂停"], "暂停"),
      Command("jump", ["跳转"], "跳转到第N首歌曲"),
      Command("volume", ["音量"], "调节音量。"),
      Command("clear", ["清空"], "清空当前歌单"),
      Command("next", ["下一首"], "下一首"),
      Command("previous", ["上一首"], "上一首"),
      Command("remove_item_list", ["删除歌曲", "歌单删除"], "删除对应歌单ID的第x首歌"),
      Command("add_item_list", ["歌单添加"], "给对应歌单ID添加歌曲"),
      Command("add_id_item_list", ["歌单添加ID"], "给对应歌单ID添加歌曲ID"),
      Command("show_list", ["当前歌单", "歌单", "查看歌单"], "查看当前歌单或其他歌单"),
      Command("list_list", ["所有歌单"], "查看所有歌单"),
      Command("play_list", ["播放歌单"], "播放对应歌单ID"),
      Command("delete_list", ["删除歌单"], "删除对应歌单ID"),
      Command("save_current_list", ["保存歌单"], "保存当前播放歌单到新歌单"),
      Command("add", ["添加"], "自动搜索歌曲并添加到当前歌单"),
      Command("play", ["播放"], "自动搜索歌曲并插入到当前歌单并播放"),
      Command("remove_item_current", ["删除"], "删除当前的第x首歌"),
      Command("pet_new", ["创建宠物", "新建宠物"], "新建一只宠物。"),
      Command("pet_upgrade", ["升级", "宠物升级"], "宠物升级。"),
      Command("pet_show", ["宠物", "我的宠物", "查看宠物"], "查看宠物信息。"),
      Command("pet_delete", ["删除宠物", "抛弃宠物"], "删除宠物。"),
      Command("pet_feed", ["喂食", "喂食宠物", "喂宠物"], "喂宠物。"),
      Command("pet_battle_add", ["加入战斗"], "宠物加入战斗。"),
      Command("pet_battle_list", ["查看战斗", "战斗"], "宠物战斗。"),
      Command("pet_battle_start", ["开始战斗"], "宠物开始战斗。"),
      Command("checkin", ["签到"], "签到。"),
      Command("broadcast", ["广播"], "广播。"),
      Command("update_apis", ["刷新接口"], "刷新接口状态。"),
      Command("show_apis", ["接口"], "查看接口状态。"),
      Command("set_priority", ["修改接口"], "修改接口优先级。")
    ]
  }

  /** The handler methods of the current bot (`cmd_<name>`). */
  function ShippedHandlers(): set<string> {
    {
      "show_apis", "set_priority", "update_apis", "chat", "help", "play", "play_id", "add",
      "add_id", "search", "pause", "show_list", "next", "previous", "jump", "volume", "clear",
      "play_list", "delete_list", "remove_item_list", "remove_item_current", "add_item_list",
      "add_id_item_list", "list_list", "save_current_list", "pet_new", "pet_upgrade",
      "pet_list", "pet_feed", "pet_show", "pet_delete", "pet_battle_start", "pet_battle_list",
      "pet_battle_add", "checkin", "broadcast"
    }
  }

  /** The legacy bot's alias table, in search order. */
  function LegacyTable(): seq<Command> {
    [
      Command("add_id", ["添加ID", "播放ID"], "添加对应ID歌曲到当前歌单"),
      Command("add", ["我想听", "我要听"], "自动搜索歌曲并添加到当前歌单"),
      Command("help", ["帮助", "怎么玩"], "显示帮助手册"),
      Command("chat", ["聊天"], "喵~~"),
      Command("search", ["搜索"], "搜索曲库歌曲"),
      Command("pause", ["暂停"], "暂停"),
      Command("jump", ["跳转"], "跳转到第N首歌曲"),
      Command("clear", ["清空"], "清空当前歌单"),
      Command("next", ["下一首"], "下一首"),
      Command("previous", ["上一首"], "上一首"),
      Command("info", ["当前歌单", "歌单", "查看歌单"], "查看当前歌单或其他歌单"),
      Command("list_list", ["所有歌单"], "查看所有歌单"),
      Command("play_list", ["播放歌单"], "播放对应歌单ID"),
      Command("delete_list", ["删除歌单"], "删除对应歌单ID"),
      Command("save_current_list", ["保存歌单"], "保存当前播放歌单到新歌单"),
      Command("add", ["播放", "添加"], "自动搜索歌曲并添加到当前歌单"),
      Command("pet_new", ["创建宠物", "新建宠物"], "新建一只宠物。"),
      Command("pet_upgrade", ["升级", "宠物升级"], "宠物升级。"),
      Command("pet_show", ["宠物", "我的宠物", "查看宠物"], "查看宠物信息。"),
      Command("pet_delete", ["删除宠物", "抛弃宠物"], "删除宠物。"),
      Command("pet_feed", ["喂食", "喂食宠物", "喂宠物"], "喂宠物。"),
      Command("checkin", ["签到"], "签到。")
    ]
  }

  /** The legacy bot's handler methods. */
  function LegacyHandlers(): set<string> {
    {
      "play", "play_id", "add_id", "search", "pause", "info", "next", "previous", "help", "chat",
      "add", "jump", "clear", "play_list", "delete_list", "list_list", "save_current_list",
      "pet_new", "pet_upgrade", "pet_list", "pet_feed", "pet_show", "pet_delete", "checkin"
    }
  }

  /** Every command of the shipped table has a handler. */
  lemma ShippedTableIsServed()
    ensures forall i | 0 <= i < |ShippedTable()| :: ShippedTable()[i].command in ShippedHandlers()
  {
  }

  /** Every command of the legacy table has a handler. */
  lemma LegacyTableIsServed()
    ensures forall i | 0 <= i < |LegacyTable()| :: LegacyTable()[i].command in LegacyHandlers()
  {
  }

  /** Every shipped command's help lists its aliases as its examples. */
  lemma ShippedHelpListsAliases()
    ensures forall i | 0 <= i < |ShippedTable()| :: HelpExamples(ShippedTable()[i]) == ShippedTable()[i].alias
  {
  }
}
