/** Message routing: the first command (in table order) with an alias (in alias order)
    that the message starts with wins, and the arguments are what is left once the alias's
    CHARACTERS are stripped from both ends, whitespace is trimmed and the rest is split on
    single spaces. */
module Router {
  import opened Wrappers
  import opened PyStr
  import opened Commands

  /** Which command matched, and through which alias. */
  datatype Hit = Hit(index: nat, alias: string)

  /** Index of the first alias the message starts with. */
  function FirstAlias(aliases: seq<string>, msg: string): (k: Option<nat>)
    ensures k.Some? ==> k.value < |aliases|
  {
    if aliases == [] then None
    else if StartsWith(msg, aliases[0]) then Some(0)
    else match FirstAlias(aliases[1..], msg)
      case None => None
      case Some(k) => Some(k + 1)
  }

  /** The alias search returns the first alias the message starts with, and nothing exactly
      when the message starts with none of them. */
  lemma {:induction false} FirstAliasIsFirstPrefix(aliases: seq<string>, msg: string)
    ensures var k := FirstAlias(aliases, msg);
      k.Some? ==>
        && k.value < |aliases| && StartsWith(msg, aliases[k.value])
        && forall j | 0 <= j < k.value :: !StartsWith(msg, aliases[j])
    ensures FirstAlias(aliases, msg).None? <==> forall j | 0 <= j < |aliases| :: !StartsWith(msg, aliases[j])
  {
    if aliases != [] && !StartsWith(msg, aliases[0]) {
      FirstAliasIsFirstPrefix(aliases[1..], msg);
      assert forall j | 1 <= j < |aliases| :: aliases[j] == aliases[1..][j - 1];
      if FirstAlias(aliases, msg).None? {
        forall j | 0 <= j < |aliases| ensures !StartsWith(msg, aliases[j]) {
          if j > 0 { assert aliases[j] == aliases[1..][j - 1]; }
        }
      }
    }
  }

  /** When the aliases before `j` are not prefixes of the message and the j-th is, the alias
      search stops at `j`. */
  lemma {:induction false} FirstAliasAt(aliases: seq<string>, msg: string, j: nat)
    requires j < |aliases| && StartsWith(msg, aliases[j])
    requires forall k | 0 <= k < j :: !StartsWith(msg, aliases[k])
    ensures FirstAlias(aliases, msg) == Some(j)
  {
    if j > 0 {
      assert !StartsWith(msg, aliases[0]);
      assert forall k | 0 <= k < j - 1 :: aliases[1..][k] == aliases[k + 1];
      FirstAliasAt(aliases[1..], msg, j - 1);
    }
  }

  /** Whether some alias of the command is a prefix of the message. */
  predicate Matches(c: Command, msg: string) {
    exists j | 0 <= j < |c.alias| :: StartsWith(msg, c.alias[j])
  }

  /** The command the message routes to, searching from position `from` of the table. */
  function LookupFrom(cmds: seq<Command>, msg: string, from: nat): Option<Hit>
    requires from <= |cmds|
    decreases |cmds| - from
  {
    if from == |cmds| then None
    else match FirstAlias(cmds[from].alias, msg)
      case Some(k) => Some(Hit(from, cmds[from].alias[k]))
      case None => LookupFrom(cmds, msg, from + 1)
  }

  /** The search from `from` finds the first command at or after `from` that has a matching
      alias, and within it the first such alias; it finds nothing exactly when no command
      from there on matches. */
  lemma {:induction false} LookupFromFindsFirstMatch(cmds: seq<Command>, msg: string, from: nat)
    requires from <= |cmds|
    ensures var h := LookupFrom(cmds, msg, from);
      h.Some? ==>
        && from <= h.value.index < |cmds|
        && FirstAlias(cmds[h.value.index].alias, msg).Some?
        && h.value.alias == cmds[h.value.index].alias[FirstAlias(cmds[h.value.index].alias, msg).value]
        && forall i | from <= i < h.value.index :: !Matches(cmds[i], msg)
    ensures LookupFrom(cmds, msg, from).None? <==> forall i | from <= i < |cmds| :: !Matches(cmds[i], msg)
    decreases |cmds| - from
  {
    if from < |cmds| {
      var k := FirstAlias(cmds[from].alias, msg);
      FirstAliasIsFirstPrefix(cmds[from].alias, msg);
      if k.Some? {
        assert StartsWith(msg, cmds[from].alias[k.value]);
      } else {
        LookupFromFindsFirstMatch(cmds, msg, from + 1);
        assert !Matches(cmds[from], msg);
      }
    }
  }

  /** The routing decision of the command search. */
  function Lookup(cmds: seq<Command>, msg: string): Option<Hit> {
    LookupFrom(cmds, msg, 0)
  }

  /** The search as the bots run it: an outer loop over the commands and an inner loop over
      each command's aliases, leaving both at the first alias the message starts with. */
  method FindCommand(cmds: seq<Command>, msg: string) returns (h: Option<Hit>)
    ensures h == Lookup(cmds, msg)
  {
    h := None;
    var i := 0;
    while i < |cmds|
      invariant 0 <= i <= |cmds|
      invariant LookupFrom(cmds, msg, 0) == LookupFrom(cmds, msg, i)
      invariant h.None?
    {
      var aliases := cmds[i].alias;
      var j := 0;
      while j < |aliases|
        invariant 0 <= j <= |aliases|
        invariant forall k | 0 <= k < j :: !StartsWith(msg, aliases[k])
      {
        if StartsWith(msg, aliases[j]) {
          h := Some(Hit(i, aliases[j]));
          FirstAliasAt(aliases, msg, j);
          return;
        }
        j := j + 1;
      }
      FirstAliasIsFirstPrefix(aliases, msg);
      i := i + 1;
    }
  }

  /** `msg.strip(alias).strip().split(' ')`. */
  function Args(msg: string, alias: string): (args: seq<string>)
    ensures |args| >= 1
    ensures forall i | 0 <= i < |args| :: ' ' !in args[i]
  {
    Split(Strip(StripChars(msg, alias)), ' ')
  }

  /** Where a message goes: to `default` when no alias matches, to the named handler with its
      arguments, or nowhere when the command has no handler. */
  datatype Route = Default | Dispatch(command: string, args: seq<string>) | NoHandler(command: string)

  function RouteOf(cmds: seq<Command>, handlers: set<string>, msg: string): (r: Route)
    ensures r.Default? <==> forall i | 0 <= i < |cmds| :: !Matches(cmds[i], msg)
    ensures r.Dispatch? ==> r.command in handlers && |r.args| >= 1
    ensures r.NoHandler? ==> r.command !in handlers
  {
    LookupFromFindsFirstMatch(cmds, msg, 0);
    match Lookup(cmds, msg)
    case None => Default
    case Some(hit) =>
      var name := cmds[hit.index].command;
      if name in handlers then Dispatch(name, Args(msg, hit.alias)) else NoHandler(name)
  }

  /** The dispatch step of `handle`: the command search, then the handler lookup. */
  method Routing(cmds: seq<Command>, handlers: set<string>, msg: string) returns (r: Route)
    ensures r == RouteOf(cmds, handlers, msg)
  {
    LookupFromFindsFirstMatch(cmds, msg, 0);
    var hit := FindCommand(cmds, msg);
    match hit {
      case None =>
        r := Default;
      case Some(h) =>
        var name := cmds[h.index].command;
        if name in handlers {
          r := Dispatch(name, Args(msg, h.alias));
        } else {
          r := NoHandler(name);
        }
    }
  }

  /** A message that starts with an alias of the i-th command is routed to a command no
      later than i. */
  lemma EarlierCommandsWin(cmds: seq<Command>, msg: string, i: nat, j: nat)
    requires i < |cmds| && j < |cmds[i].alias| && StartsWith(msg, cmds[i].alias[j])
    ensures Lookup(cmds, msg).Some? && Lookup(cmds, msg).value.index <= i
  {
    LookupFromFindsFirstMatch(cmds, msg, 0);
    assert Matches(cmds[i], msg);
  }

  /** Stripping an alias removes its characters as a SET from both ends: an argument made of
      alias characters disappears with the alias. */
  lemma ArgumentOfAliasCharactersIsLost(alias: string, tail: string)
    requires forall k | 0 <= k < |tail| :: tail[k] in alias
    ensures Args(alias + tail, alias) == [""]
  {
    var s := alias + tail;
    forall k | 0 <= k < |s|
      ensures InSet(alias)(s[k])
    {
      if k >= |alias| {
        assert s[k] == tail[k - |alias|];
      }
    }
    StripAllDropped(s, InSet(alias));
    StripAllDropped([], IsSpace);
  }

  /** When the text after the alias neither starts nor ends with an alias character or with
      whitespace, the arguments are exactly that text split on single spaces. */
  lemma ArgsAfterAlias(alias: string, rest: string)
    requires rest != []
    requires rest[0] !in alias && rest[|rest| - 1] !in alias
    requires !IsSpace(rest[0]) && !IsSpace(rest[|rest| - 1])
    ensures Args(alias + rest, alias) == Split(rest, ' ')
  {
    StripCharsAfterPrefix(alias, rest, alias);
    StripKeepsClean(rest, IsSpace);
  }

  /** A command each of whose aliases starts with an alias of an earlier command is never
      reached: every message that would match it has already matched the earlier one. */
  lemma ShadowedCommandIsUnreachable(cmds: seq<Command>, i: nat, j: nat, msg: string)
    requires j < i < |cmds|
    requires forall a | 0 <= a < |cmds[i].alias| ::
      exists b | 0 <= b < |cmds[j].alias| :: StartsWith(cmds[i].alias[a], cmds[j].alias[b])
    ensures Lookup(cmds, msg).Some? ==> Lookup(cmds, msg).value.index != i
  {
    LookupFromFindsFirstMatch(cmds, msg, 0);
    var h := Lookup(cmds, msg);
    if h.Some? && h.value.index == i {
      var k := FirstAlias(cmds[i].alias, msg).value;
      FirstAliasIsFirstPrefix(cmds[i].alias, msg);
      var b :| 0 <= b < |cmds[j].alias| && StartsWith(cmds[i].alias[k], cmds[j].alias[b]);
      StartsWithTransitive(msg, cmds[i].alias[k], cmds[j].alias[b]);
      assert Matches(cmds[j], msg);
      assert false;
    }
  }

  /** A message that starts with the a-th alias of command i, where that alias starts with the
      b-th alias of an earlier command j, is routed to command j or earlier, never to i. */
  lemma ShadowedAlias(cmds: seq<Command>, i: nat, a: nat, j: nat, b: nat, msg: string)
    requires j < i < |cmds| && a < |cmds[i].alias| && b < |cmds[j].alias|
    requires StartsWith(cmds[i].alias[a], cmds[j].alias[b])
    requires StartsWith(msg, cmds[i].alias[a])
    ensures Lookup(cmds, msg).Some? && Lookup(cmds, msg).value.index <= j
  {
    StartsWithTransitive(msg, cmds[i].alias[a], cmds[j].alias[b]);
    EarlierCommandsWin(cmds, msg, j, b);
  }

  /** Every alias in the list clashes with `p`. */
  predicate AllClash(p: string, aliases: seq<string>) {
    aliases == [] || (Clashes(p, aliases[0]) && AllClash(p, aliases[1..]))
  }

  lemma {:induction false} AllClashExcludes(msg: string, p: string, aliases: seq<string>)
    requires StartsWith(msg, p) && AllClash(p, aliases)
    ensures forall a | 0 <= a < |aliases| :: !StartsWith(msg, aliases[a])
  {
    if aliases != [] {
      ClashExcludes(msg, p, aliases[0]);
      AllClashExcludes(msg, p, aliases[1..]);
      assert forall a | 1 <= a < |aliases| :: aliases[a] == aliases[1..][a - 1];
    }
  }

  /** A message the search sends to command i through `alias` is dispatched to that
      command's handler with the arguments left after `alias`, when the handler exists. */
  lemma RouteOfHit(cmds: seq<Command>, handlers: set<string>, msg: string, i: nat, alias: string)
    requires Lookup(cmds, msg) == Some(Hit(i, alias)) && i < |cmds| && cmds[i].command in handlers
    ensures RouteOf(cmds, handlers, msg) == Dispatch(cmds[i].command, Args(msg, alias))
  {
  }

  /** A message that starts with `p`, where `p` starts with the j-th alias of command i,
      goes to command i through that alias when every earlier alias of command i and every
      alias of an earlier command clashes with `p`. */
  lemma PrefixRoutesTo(cmds: seq<Command>, msg: string, p: string, i: nat, j: nat)
    requires i < |cmds| && j < |cmds[i].alias|
    requires StartsWith(msg, p) && StartsWith(p, cmds[i].alias[j])
    requires AllClash(p, cmds[i].alias[..j])
    requires forall c | 0 <= c < i :: AllClash(p, cmds[c].alias)
    ensures Lookup(cmds, msg) == Some(Hit(i, cmds[i].alias[j]))
  {
    StartsWithTransitive(msg, p, cmds[i].alias[j]);
    AllClashExcludes(msg, p, cmds[i].alias[..j]);
    assert forall a | 0 <= a < j :: cmds[i].alias[a] == cmds[i].alias[..j][a];
    FirstAliasAt(cmds[i].alias, msg, j);
    forall c | 0 <= c < i ensures !Matches(cmds[c], msg) {
      AllClashExcludes(msg, p, cmds[c].alias);
    }
    LookupFromFindsFirstMatch(cmds, msg, 0);
    EarlierCommandsWin(cmds, msg, i, j);
    FirstAliasIsFirstPrefix(cmds[Lookup(cmds, msg).value.index].alias, msg);
  }

  // ---------------------------------------------------------------------------
  // The shipped tables

  /** In the current table `add_id_item_list` (position 14, alias "歌单添加ID") is never
      reached: `add_item_list` (position 13) comes first and its alias "歌单添加" is a prefix. */
  lemma AddIdItemListIsUnreachable()
    ensures ShippedTable()[14].command == "add_id_item_list"
    ensures forall msg | Lookup(ShippedTable(), msg).Some? :: Lookup(ShippedTable(), msg).value.index != 14
  {
    var t := ShippedTable();
    assert t[14].alias == ["歌单添加ID"];
    assert t[13].alias == ["歌单添加"];
    assert StartsWith(t[14].alias[0], t[13].alias[0]);
    forall msg | Lookup(t, msg).Some? ensures Lookup(t, msg).value.index != 14 {
      ShadowedCommandIsUnreachable(t, 14, 13, msg);
    }
  }

  /** Every alias before `add_item_list` clashes with "歌单添加". */
  lemma ClashesBeforeAddItemList()
    ensures forall c | 0 <= c < 13 :: AllClash("歌单添加", ShippedTable()[c].alias)
  {
  }

  /** Every alias before `remove_item_current` clashes with "删除宠物". */
  lemma ClashesBeforeRemoveItemCurrent()
    ensures forall c | 0 <= c < 22 :: AllClash("删除宠物", ShippedTable()[c].alias)
  {
  }

  /** Every alias before the legacy `play_list` clashes with "播放歌单". */
  lemma ClashesBeforeLegacyPlayList()
    ensures forall c | 0 <= c < 12 :: AllClash("播放歌单", LegacyTable()[c].alias)
  {
  }

  /** The message "歌单添加ID0 1" therefore reaches the handler of `add_item_list`, with the
      id marker glued to its first argument. */
  lemma AddIdItemMessageKeepsIdMarker(msg: string)
    requires msg == "歌单添加ID0 1"
    ensures RouteOf(ShippedTable(), ShippedHandlers(), msg) == Dispatch("add_item_list", ["ID0", "1"])
  {
    var t := ShippedTable();
    assert t[13].command == "add_item_list";
    AddItemListLookup(msg);
    AddItemListArgs(msg);
    RouteOfHit(t, ShippedHandlers(), msg, 13, "歌单添加");
  }

  lemma AddItemListLookup(msg: string)
    requires msg == "歌单添加ID0 1"
    ensures Lookup(ShippedTable(), msg) == Some(Hit(13, "歌单添加"))
  {
    var t := ShippedTable();
    assert t[13].alias == ["歌单添加"];
    StartsWithIsSlicePrefix(msg, "歌单添加");
    assert msg[..4] == "歌单添加";
    assert StartsWith("歌单添加", "歌单添加");
    ClashesBeforeAddItemList();
    PrefixRoutesTo(t, msg, "歌单添加", 13, 0);
  }

  lemma AddItemListArgs(msg: string)
    requires msg == "歌单添加ID0 1"
    ensures Args(msg, "歌单添加") == ["ID0", "1"]
  {
    var alias, rest := "歌单添加", "ID0 1";
    assert alias + rest == msg;
    assert rest[0] !in alias && rest[|rest| - 1] !in alias;
    assert !IsSpace(rest[0]) && !IsSpace(rest[|rest| - 1]);
    ArgsAfterAlias(alias, rest);
    IdMarkerWords(rest);
  }

  lemma IdMarkerWords(rest: string)
    requires rest == "ID0 1"
    ensures Split(rest, ' ') == ["ID0", "1"]
  {
    SplitTwoWords(rest, 3);
    assert rest[..3] == "ID0" && rest[4..] == "1";
  }

  /** In the current table a message starting with "删除宠物", the first alias of `pet_delete`
      (position 26), is routed to `remove_item_current` (position 22) through its alias "删除";
      `pet_delete` is reached only through "抛弃宠物". */
  lemma PetDeleteFirstAliasIsShadowed()
    ensures ShippedTable()[26].command == "pet_delete" && ShippedTable()[26].alias[0] == "删除宠物"
    ensures forall msg | StartsWith(msg, "删除宠物") ::
      && Lookup(ShippedTable(), msg) == Some(Hit(22, "删除"))
      && RouteOf(ShippedTable(), ShippedHandlers(), msg) == Dispatch("remove_item_current", Args(msg, "删除"))
  {
    var t := ShippedTable();
    var p := "删除宠物";
    assert t[22].command == "remove_item_current" && t[22].alias == ["删除"];
    StartsWithIsSlicePrefix(p, "删除");
    ClashesBeforeRemoveItemCurrent();
    forall msg | StartsWith(msg, p)
      ensures Lookup(t, msg) == Some(Hit(22, "删除"))
      ensures RouteOf(t, ShippedHandlers(), msg) == Dispatch("remove_item_current", Args(msg, "删除"))
    {
      PrefixRoutesTo(t, msg, p, 22, 0);
      RouteOfHit(t, ShippedHandlers(), msg, 22, "删除");
    }
  }

  /** In the legacy table every message starting with "播放ID" goes to `add_id` through its
      second alias, with what follows the alias as arguments. */
  lemma LegacyPlayIdRoutesToAddId()
    ensures forall msg | StartsWith(msg, "播放ID") ::
      RouteOf(LegacyTable(), LegacyHandlers(), msg) == Dispatch("add_id", Args(msg, "播放ID"))
  {
    var t := LegacyTable();
    assert t[0].command == "add_id" && t[0].alias == ["添加ID", "播放ID"];
    assert "add_id" in LegacyHandlers();
    forall msg | StartsWith(msg, "播放ID")
      ensures RouteOf(t, LegacyHandlers(), msg) == Dispatch("add_id", Args(msg, "播放ID"))
    {
      StartsWithDistinctHeads(msg, "播放ID", "添加ID");
      FirstAliasAt(t[0].alias, msg, 1);
    }
  }

  /** In the legacy table a message starting with "播放歌单" goes to `play_list` (position 12),
      not to the later `add` entry (position 15) whose alias "播放" it also starts with. */
  lemma LegacyPlayListBeatsPlay()
    ensures LegacyTable()[15].command == "add" && StartsWith("播放歌单", LegacyTable()[15].alias[0])
    ensures forall msg | StartsWith(msg, "播放歌单") ::
      RouteOf(LegacyTable(), LegacyHandlers(), msg) == Dispatch("play_list", Args(msg, "播放歌单"))
  {
    var t := LegacyTable();
    var p := "播放歌单";
    assert t[12].command == "play_list" && t[12].alias == [p];
    assert t[15].alias[0] == "播放";
    StartsWithIsSlicePrefix(p, p);
    StartsWithIsSlicePrefix(p, "播放");
    ClashesBeforeLegacyPlayList();
    forall msg | StartsWith(msg, p)
      ensures RouteOf(t, LegacyHandlers(), msg) == Dispatch("play_list", Args(msg, p))
    {
      PrefixRoutesTo(t, msg, p, 12, 0);
      RouteOfHit(t, LegacyHandlers(), msg, 12, p);
    }
  }
}
