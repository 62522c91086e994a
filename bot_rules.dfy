/** The pure rules of the current bot: how an outgoing message is wrapped in colour and bold
    tags, how a probe of the registered backends updates their table, how registered command
    descriptions become commands, and the fixed texts the bot sends. */
module BotRules {
  import opened Wrappers
  import opened PyStr
  import opened Commands
  import opened Election
  import opened MusicData
  import opened Events
  import opened DictOrder

  /** `register_music_api`'s default priority. */
  const DefaultPriority := 100
  /** The target mode of a server-wide message; any other mode is sent to the channel. */
  const ServerTargetMode := 3

  const ChatUnset := "聊天api未设置。"
  const ChatOn := "聊天模式已开启喵~~"
  const Goodbye := "那我先下线了喵~~"
  const NoAction := "未执行操作。"
  const AskSuffix := " >"
  const ConfirmSuffix := "[是/否]"
  const Yes := "是"
  const ChatSeparator := "："
  const AskApiId := "请输入接口Id。"
  const AskPriority := "请输入需要修改的优先级大小。"
  const AskNumber := "请输入数字。"
  const UnknownApi := "未找到对应接口。"
  const PriorityChanged := "修改成功。"
  const NowPlayingFrom := "！！正在播放来自"
  const NowPlayingOf := "的"

  // ---------------------------------------------------------------------------
  // Message wrapping

  /** The tags in front of the message: bold outside, colour inside. */
  function Opening(color: Option<string>, bold: bool): string {
    (if bold then "[b]" else "") + (if color.Some? then "[color=" + color.value + "]" else "")
  }

  /** The closing tags, in the reverse order. */
  function Closing(color: Option<string>, bold: bool): string {
    (if color.Some? then "[/color]" else "") + (if bold then "[/b]" else "")
  }

  /** The text `send(msg, color, bold)` puts on the wire: the colour tags wrap the message
      first and the bold tags wrap the result. */
  function Format(msg: string, color: Option<string>, bold: bool): (t: string)
    ensures t == Opening(color, bold) + msg + Closing(color, bold)
  {
    var colored := if color.Some? then "[color=" + color.value + "]" + msg + "[/color]" else msg;
    if bold then "[b]" + colored + "[/b]" else colored
  }

  /** The message can be read back from the wrapped text, so no two messages are sent as the
      same text under the same wrapping. */
  lemma FormatIsInjective(a: string, b: string, color: Option<string>, bold: bool)
    requires Format(a, color, bold) == Format(b, color, bold)
    ensures a == b
  {
    var o, c := Opening(color, bold), Closing(color, bold);
    var t := Format(a, color, bold);
    assert a == t[|o|..|t| - |c|];
    assert b == t[|o|..|t| - |c|];
  }

  /** `error(m)` sends `[b][color=red]m[/color][/b]`; `warning(m)` only bolds, `info(m)` sends
      the text as it is. */
  lemma ReportWrappings(m: string)
    ensures Format(m, Some("red"), true) == "[b][color=red]" + m + "[/color][/b]"
    ensures Format(m, Some("green"), true) == "[b][color=green]" + m + "[/color][/b]"
    ensures Format(m, None, true) == "[b]" + m + "[/b]"
    ensures Format(m, None, false) == m
  {
  }

  // ---------------------------------------------------------------------------
  // The backend table

  /** The table after `check_apis_access`: every entry's accessibility is the result of
      probing its backend, and nothing else changes. */
  function Probed(infos: map<string, ApiInfo>, available: string -> bool): map<string, ApiInfo> {
    map id | id in infos :: infos[id].(accessibility := available(id))
  }

  /** Probing keeps every key, id and priority, and probing twice with the same answers is
      probing once. */
  lemma ProbeIsIdempotent(infos: map<string, ApiInfo>, available: string -> bool)
    ensures Probed(infos, available).Keys == infos.Keys
    ensures forall id | id in infos ::
      && Probed(infos, available)[id].id == infos[id].id
      && Probed(infos, available)[id].priority == infos[id].priority
      && Probed(infos, available)[id].accessibility == available(id)
    ensures Probed(Probed(infos, available), available) == Probed(infos, available)
  {
  }

  /** The table of registered backends and its order list the same ids, and each entry sits
      under its own id. */
  predicate TableValid<B>(order: seq<string>, infos: map<string, ApiInfo>, bs: map<string, B>) {
    && (forall i | 0 <= i < |order| :: order[i] in infos)
    && (forall id | id in infos :: id in order && infos[id].id == id)
    && bs.Keys == infos.Keys
  }

  /** Registering a backend under an id keeps the table consistent: the dict gains or
      replaces the entry, and the order gains the id only if it is new. */
  lemma RegisterKeepsTable<B>(order: seq<string>, infos: map<string, ApiInfo>, bs: map<string, B>, id: string, priority: int, b: B)
    requires TableValid(order, infos, bs)
    ensures TableValid(Put(order, id), infos[id := ApiInfo(id, priority, false)], bs[id := b])
  {
  }

  /** The entries of the table in the dict's insertion order (`music_apis.items()`). */
  function Items(order: seq<string>, infos: map<string, ApiInfo>): (r: seq<ApiInfo>)
    requires forall i | 0 <= i < |order| :: order[i] in infos
    ensures |r| == |order|
    ensures forall k | 0 <= k < |r| :: r[k] == infos[order[k]]
  {
    if order == [] then [] else [infos[order[0]]] + Items(order[1..], infos)
  }

  /** Every listed entry is the table's entry under its own id. */
  lemma ItemsAreEntries(order: seq<string>, infos: map<string, ApiInfo>, x: ApiInfo)
    requires forall i | 0 <= i < |order| :: order[i] in infos
    requires forall id | id in infos :: infos[id].id == id
    requires x in multiset(Items(order, infos))
    ensures x.id in infos && infos[x.id] == x
  {
    var items := Items(order, infos);
    var k :| 0 <= k < |items| && items[k] == x;
    assert items[k] == infos[order[k]];
  }

  /** The id `update_music_api` elects from the table listed in `order`: that of the reference
      choice `Best`, which is the first available entry once the entries are sorted by
      priority, highest first and stably (`SortedElectionIsBest`). */
  function ElectedId(order: seq<string>, infos: map<string, ApiInfo>): (r: Option<string>)
    requires forall i | 0 <= i < |order| :: order[i] in infos
    requires forall id | id in infos :: infos[id].id == id
    ensures r.Some? ==> r.value in infos && infos[r.value].accessibility
    ensures r.None? <==> forall i | 0 <= i < |order| :: !infos[order[i]].accessibility
    ensures r.Some? ==> forall i | 0 <= i < |order| && infos[order[i]].accessibility ::
      infos[order[i]].priority <= infos[r.value].priority
  {
    var b := Best(Items(order, infos));
    if b.None? then None
    else
      ItemsAreEntries(order, infos, b.value);
      Some(b.value.id)
  }

  // ---------------------------------------------------------------------------
  // Registering commands

  /** What `register_commands` may be given in its list: a dictionary describing a command,
      a command, or anything else (which it skips). */
  datatype CommandInput = Described(d: map<string, Field>) | Ready(c: Command) | Other

  /** The commands appended, in order, and the refusal that stopped the loop, if any: a
      dictionary that does not describe a command raises in `Command(**cmd)`, after the
      commands before it have been appended. */
  datatype Conversion = Conversion(cmds: seq<Command>, failure: Option<Refusal>)

  function Converted(items: seq<CommandInput>): (r: Conversion)
    ensures |r.cmds| <= |items|
    ensures r.failure.None? <==> forall i | 0 <= i < |items| :: items[i].Described? ==> FromDict(items[i].d).Built?
  {
    if items == [] then Conversion([], None)
    else
      match items[0]
      case Other => Converted(items[1..])
      case Ready(c) =>
        var rest := Converted(items[1..]);
        Conversion([c] + rest.cmds, rest.failure)
      case Described(d) =>
        match FromDict(d)
        case Refused(why) => Conversion([], Some(why))
        case Built(c) =>
          var rest := Converted(items[1..]);
          Conversion([c] + rest.cmds, rest.failure)
  }

  /** Registering a table given as dictionaries (such as the shipped one) registers exactly
      the commands they describe, in order. */
  lemma {:induction false} DescribedTableIsRegistered(cmds: seq<Command>)
    ensures Converted(seq(|cmds|, i requires 0 <= i < |cmds| => Described(ToDict(cmds[i])))) == Conversion(cmds, None)
  {
    var items := seq(|cmds|, i requires 0 <= i < |cmds| => Described(ToDict(cmds[i])));
    if cmds != [] {
      DictRoundTrip(cmds[0]);
      DescribedTableIsRegistered(cmds[1..]);
      assert items[1..] == seq(|cmds[1..]|, i requires 0 <= i < |cmds[1..]| => Described(ToDict(cmds[1..][i])));
      assert cmds == [cmds[0]] + cmds[1..];
    }
  }

  /** Only the refused dictionary stops registration: what came before it is kept. */
  lemma {:induction false} RefusalKeepsEarlierCommands(items: seq<CommandInput>, k: nat)
    requires k < |items| && items[k].Described? && FromDict(items[k].d).Refused?
    requires forall i | 0 <= i < k :: items[i].Ready?
    ensures Converted(items) == Conversion(seq(k, i requires 0 <= i < k => items[i].c), Some(FromDict(items[k].d).why))
  {
    if k > 0 {
      RefusalKeepsEarlierCommands(items[1..], k - 1);
      assert seq(k, i requires 0 <= i < k => items[i].c) == [items[0].c] + seq(k - 1, i requires 0 <= i < k - 1 => items[1..][i].c);
    }
  }

  // ---------------------------------------------------------------------------
  // Texts

  /** The player description `update_info` sets for a song. */
  function NowPlaying(song: Song): (t: string)
    ensures |NowPlayingFrom| + |song.name| <= |t|
    ensures t[..|NowPlayingFrom|] == NowPlayingFrom
    ensures t[|t| - |song.name|..] == song.name
  {
    NowPlayingFrom + SingerNames(song.singers) + NowPlayingOf + song.name
  }

  /** What `ask` returns for the event it ended with: the stripped text of the message, or
      `''` when no event was handed over. */
  function Answer(r: Received): string {
    if r.event.None? then "" else Strip(r.event.value.msg)
  }
}
