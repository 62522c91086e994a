/** The current pet game: a pet's food, feeding and upgrade counters (`Pet`), and the table
    of pets by owner with the queue of pets waiting for a battle (`PetApi`). Times are
    integer microseconds on the clock the bot reads; the language model that invents pets,
    skills and battles is left outside, and what it produced is passed in. */
module Pets {
  import opened Wrappers
  import opened PyStr

  /** One second on the microsecond clock: a pet fed less than this after `lastFeed` is full. */
  const Second := 1_000_000

  const NoFood := "NoFood"
  const Full := "Full"
  const Fed := "Success"
  const LevelUp := "LevelUp"
  const NoTimes := "NoTimes"

  datatype Skill = Skill(name: string, kind: string, capability: int, description: string)

  /** The skill every new pet starts with. */
  const FirstSkill := Skill("小拳拳", "攻击", 1, "初始技能")

  /** The attributes of a new pet, as the language model produced them. */
  datatype GetPetResponse = GetPetResponse(name: string, species: string, description: string, health: int, height: int, weight: int)

  /** `get_info()`: a snapshot of a pet. */
  datatype PetInfo = PetInfo(
    owner: string, name: string, species: string, description: string,
    health: int, height: int, weight: int,
    level: int, upgradeTimes: int, foodAmount: int, feedTimes: int,
    lastFeed: int, skills: seq<Skill>)

  /** What `feed` and `upgrade` answer, with the pet they leave. */
  datatype Outcome = Outcome(info: PetInfo, ok: bool, reason: string)

  /** The counters never go negative, and a pet never has more feeds towards its next level
      than its level. */
  predicate Sound(i: PetInfo) {
    0 <= i.feedTimes <= i.level && 0 <= i.upgradeTimes && 0 <= i.foodAmount
  }

  /** `feed()` at time `now`. */
  function FeedResult(i: PetInfo, now: int): (r: Outcome)
    ensures i.foodAmount == 0 ==> r == Outcome(i, false, NoFood)
    ensures i.foodAmount != 0 && now - i.lastFeed < Second ==> r == Outcome(i, false, Full)
    ensures r.ok <==> i.foodAmount != 0 && now - i.lastFeed >= Second
    ensures r.ok ==> r.info.foodAmount == i.foodAmount - 1
    ensures r.ok ==> (r.reason == LevelUp <==> i.feedTimes + 1 >= i.level + 1)
    ensures r.ok && r.reason == LevelUp ==> r.info.upgradeTimes == i.upgradeTimes + 1 && r.info.feedTimes == 0
    ensures r.ok && r.reason != LevelUp ==> r.reason == Fed && r.info.upgradeTimes == i.upgradeTimes && r.info.feedTimes == i.feedTimes + 1
    ensures r.info.lastFeed == i.lastFeed && r.info.level == i.level && r.info.skills == i.skills && r.info.owner == i.owner
    ensures Sound(i) ==> Sound(r.info)
  {
    if i.foodAmount == 0 then Outcome(i, false, NoFood)
    else if now - i.lastFeed < Second then Outcome(i, false, Full)
    else
      var j := i.(foodAmount := i.foodAmount - 1, feedTimes := i.feedTimes + 1);
      if j.feedTimes >= j.level + 1 then Outcome(j.(upgradeTimes := j.upgradeTimes + 1, feedTimes := 0), true, LevelUp)
      else Outcome(j, true, Fed)
  }

  /** `upgrade()`: spends one stored level-up. */
  function LevelUpResult(i: PetInfo): (r: Outcome)
    ensures i.upgradeTimes == 0 ==> r == Outcome(i, false, NoTimes)
    ensures i.upgradeTimes != 0 ==>
      && r.ok && r.reason == Fed
      && r.info.level == i.level + 1 && r.info.upgradeTimes == i.upgradeTimes - 1
      && r.info.foodAmount == i.foodAmount && r.info.feedTimes == i.feedTimes
    ensures r.info.lastFeed == i.lastFeed && r.info.skills == i.skills && r.info.owner == i.owner
    ensures Sound(i) ==> Sound(r.info)
  {
    if i.upgradeTimes == 0 then Outcome(i, false, NoTimes)
    else Outcome(i.(level := i.level + 1, upgradeTimes := i.upgradeTimes - 1), true, Fed)
  }

  /** The pet after `n` feeds at the same time `now`. */
  function FeedTimes(i: PetInfo, now: int, n: nat): PetInfo
    decreases n
  {
    if n == 0 then i else FeedTimes(FeedResult(i, now).info, now, n - 1)
  }

  /** Feeds below the level threshold only count: each takes one food and adds one feed. */
  lemma {:induction false} FeedsBelowThreshold(i: PetInfo, now: int, n: nat)
    requires Sound(i) && now - i.lastFeed >= Second
    requires n <= i.foodAmount && i.feedTimes + n <= i.level
    ensures FeedTimes(i, now, n) == i.(foodAmount := i.foodAmount - n, feedTimes := i.feedTimes + n)
    decreases n
  {
    if n > 0 {
      var j := FeedResult(i, now).info;
      assert j == i.(foodAmount := i.foodAmount - 1, feedTimes := i.feedTimes + 1);
      FeedsBelowThreshold(j, now, n - 1);
    }
  }

  /** A pet at level `L` with no feeds counted earns one level-up with exactly `L + 1` feeds,
      after which its feed count starts again from zero. */
  lemma LevelUpTakesLevelPlusOneFeeds(i: PetInfo, now: int)
    requires Sound(i) && now - i.lastFeed >= Second
    requires i.feedTimes == 0 && i.foodAmount >= i.level + 1
    ensures FeedTimes(i, now, i.level + 1) ==
      i.(foodAmount := i.foodAmount - i.level - 1, upgradeTimes := i.upgradeTimes + 1)
  {
    FeedsBelowThreshold(i, now, i.level);
    var j := FeedTimes(i, now, i.level);
    FeedTimesLast(i, now, i.level);
    assert FeedResult(j, now).reason == LevelUp;
  }

  /** The last of `n + 1` feeds is one feed after the first `n`. */
  lemma {:induction false} FeedTimesLast(i: PetInfo, now: int, n: nat)
    ensures FeedTimes(i, now, n + 1) == FeedResult(FeedTimes(i, now, n), now).info
    decreases n
  {
    if n > 0 {
      FeedTimesLast(FeedResult(i, now).info, now, n - 1);
    }
  }

  /** A pet: its fixed attributes and the counters `feed` and `upgrade` change in place. */
  class Pet {
    const owner: string
    const name: string
    const species: string
    const description: string
    const health: int
    const height: int
    const weight: int
    var level: int
    var upgradeTimes: int
    var foodAmount: int
    var feedTimes: int
    var lastFeed: int
    var skills: seq<Skill>

    function Info(): PetInfo
      reads this
    {
      PetInfo(owner, name, species, description, health, height, weight,
              level, upgradeTimes, foodAmount, feedTimes, lastFeed, skills)
    }

    predicate Valid()
      reads this
    {
      Sound(Info())
    }

    /** `create_pet(owner, response)` at time `now`: level 0, every counter 0, fed last at
        its creation, and the first skill. */
    constructor (owner: string, r: GetPetResponse, now: int)
      ensures Valid() && this.owner == owner
      ensures Info() == PetInfo(owner, r.name, r.species, r.description, r.health, r.height, r.weight,
                                0, 0, 0, 0, now, [FirstSkill])
    {
      this.owner := owner;
      name := r.name;
      species := r.species;
      description := r.description;
      health := r.health;
      height := r.height;
      weight := r.weight;
      level := 0;
      upgradeTimes := 0;
      foodAmount := 0;
      feedTimes := 0;
      lastFeed := now;
      skills := [FirstSkill];
    }

    method Feed(now: int) returns (ok: bool, reason: string)
      requires Valid()
      modifies this
      ensures Valid()
      ensures Info() == FeedResult(old(Info()), now).info
      ensures ok == FeedResult(old(Info()), now).ok && reason == FeedResult(old(Info()), now).reason
    {
      if foodAmount == 0 {
        return false, NoFood;
      }
      if now - lastFeed < Second {
        return false, Full;
      }
      foodAmount := foodAmount - 1;
      feedTimes := feedTimes + 1;
      if feedTimes >= level + 1 {
        upgradeTimes := upgradeTimes + 1;
        feedTimes := 0;
        return true, LevelUp;
      }
      return true, Fed;
    }

    method Upgrade() returns (ok: bool, reason: string)
      requires Valid()
      modifies this
      ensures Valid()
      ensures Info() == LevelUpResult(old(Info())).info
      ensures ok == LevelUpResult(old(Info())).ok && reason == LevelUpResult(old(Info())).reason
    {
      if upgradeTimes == 0 {
        return false, NoTimes;
      }
      level := level + 1;
      upgradeTimes := upgradeTimes - 1;
      return true, Fed;
    }
  }

  // ---------------------------------------------------------------------------
  // Battles

  datatype BattleResult = BattleResult(winner: string, rounds: seq<string>)

  /** The digits of `s` from `k` on, up to the first non-digit. */
  function DigitRun(s: string, k: nat): (n: nat)
    requires k <= |s|
    ensures k + n <= |s|
    ensures forall i | k <= i < k + n :: IsDigit(s[i])
    ensures k + n < |s| ==> !IsDigit(s[k + n])
    decreases |s| - k
  {
    if k < |s| && IsDigit(s[k]) then 1 + DigitRun(s, k + 1) else 0
  }

  /** Whether `[digits]` starts at `k`. */
  predicate BracketAt(s: string, k: nat) {
    k < |s| && s[k] == '[' && DigitRun(s, k + 1) >= 1 && k + 1 + DigitRun(s, k + 1) < |s| && s[k + 1 + DigitRun(s, k + 1)] == ']'
  }

  /** The number of the `[digits]` that starts at `k`. */
  function BracketValue(s: string, k: nat): nat
    requires BracketAt(s, k)
  {
    NumeralValue(s[k + 1..k + 1 + DigitRun(s, k + 1)])
  }

  /** The position of the first `[digits]` from `k` on (the first match of `\[(\d+)]`). */
  function FirstBracket(s: string, k: nat): (r: Option<nat>)
    requires k <= |s|
    ensures r.Some? ==> k <= r.value && BracketAt(s, r.value)
    ensures r.Some? ==> forall i | k <= i < r.value :: !BracketAt(s, i)
    ensures r.None? ==> forall i | k <= i < |s| :: !BracketAt(s, i)
    decreases |s| - k
  {
    if k == |s| then None
    else if BracketAt(s, k) then Some(k)
    else FirstBracket(s, k + 1)
  }

  /** How `battle_pet` reads the model's account of a battle between the pets of `owners`:
      the rounds are the `|`-separated pieces but the last, the winner is the owner of the pet
      numbered by the first `[digits]`; with no such number, or one past the queue, there
      is no result. */
  function ReadBattle(text: string, owners: seq<string>): (r: Option<BattleResult>)
    ensures r.Some? <==> FirstBracket(text, 0).Some? && BracketValue(text, FirstBracket(text, 0).value) < |owners|
    ensures r.Some? ==> r.value.winner == owners[BracketValue(text, FirstBracket(text, 0).value)]
    ensures r.Some? ==> r.value.rounds + [Split(text, '|')[|Split(text, '|')| - 1]] == Split(text, '|')
  {
    var pieces := Split(text, '|');
    var first := FirstBracket(text, 0);
    if first.None? then None
    else
      var n := BracketValue(text, first.value);
      if n < |owners| then
        assert pieces[..|pieces| - 1] + [pieces[|pieces| - 1]] == pieces;
        Some(BattleResult(owners[n], pieces[..|pieces| - 1]))
      else None
  }

  /** The account the model is asked for, `round|round|...|[n]`, is read back as those rounds
      and the owner of pet `n`, provided the rounds hold no `|` and no `[`. */
  lemma ReadBattleOfAccount(rounds: seq<string>, n: nat, owners: seq<string>)
    requires forall i | 0 <= i < |rounds| :: '|' !in rounds[i] && '[' !in rounds[i]
    requires n < |owners|
    ensures ReadBattle(Join(rounds + ["[" + NatToString(n) + "]"], '|'), owners) == Some(BattleResult(owners[n], rounds))
  {
    var last := "[" + NatToString(n) + "]";
    var parts := rounds + [last];
    var text := Join(parts, '|');
    assert '|' !in last by {
      forall i | 0 <= i < |NatToString(n)| ensures NatToString(n)[i] != '|' { assert IsDigit(NatToString(n)[i]); }
    }
    SplitJoin(parts, '|');
    assert parts[..|parts| - 1] == rounds;
    var p := JoinedPrefix(rounds, last);
    NumberAfterPrefix(p, n);
  }

  /** After a prefix without `[`, the first `[digits]` is the one that follows it. */
  lemma NumberAfterPrefix(p: string, n: nat)
    requires '[' !in p
    ensures var t := p + ("[" + NatToString(n) + "]");
      FirstBracket(t, 0) == Some(|p|) && BracketValue(t, |p|) == n
  {
    var d := NatToString(n);
    var t := p + ("[" + d + "]");
    forall i | 0 <= i < |p| ensures !BracketAt(t, i) {
      assert t[i] == p[i];
    }
    assert t[|p| + 1..|p| + 1 + |d|] == d;
    DigitRunOf(t, |p| + 1, |d|);
    FirstBracketPast(t, 0, |p|);
    NumeralOfNatToString(n);
  }

  /** The joined rounds before the number, and the number after them. */
  function JoinedPrefix(rounds: seq<string>, last: string): (p: string)
    requires forall i | 0 <= i < |rounds| :: '[' !in rounds[i]
    ensures Join(rounds + [last], '|') == p + last
    ensures '[' !in p
  {
    if rounds == [] then ""
    else
      assert (rounds + [last])[1..] == rounds[1..] + [last];
      rounds[0] + ['|'] + JoinedPrefix(rounds[1..], last)
  }

  lemma {:induction false} DigitRunOf(s: string, k: nat, n: nat)
    requires k + n < |s|
    requires forall i | k <= i < k + n :: IsDigit(s[i])
    requires !IsDigit(s[k + n])
    ensures DigitRun(s, k) == n
    decreases n
  {
    if n > 0 {
      DigitRunOf(s, k + 1, n - 1);
    }
  }

  lemma {:induction false} FirstBracketPast(s: string, k: nat, m: nat)
    requires k <= m <= |s|
    requires forall i | k <= i < m :: !BracketAt(s, i)
    ensures FirstBracket(s, k) == FirstBracket(s, m)
    decreases m - k
  {
    if k < m {
      FirstBracketPast(s, k + 1, m);
    }
  }

  /** The pets by owner, and the pets waiting for a battle. */
  class PetApi {
    var petDict: map<string, Pet>
    var battleWait: seq<Pet>

    /** Every pet is consistent and filed under its own owner (so two owners never share a
        pet). */
    predicate Valid()
      reads this, petDict.Values
    {
      forall o | o in petDict :: petDict[o].Valid() && petDict[o].owner == o
    }

    /** `have_pet(owner)`. */
    function HavePet(owner: string): bool
      reads this
    {
      owner in petDict
    }

    /** `upgradable(owner)`: whether the owner's pet has a level-up to spend; `None` is the
        `KeyError` of an unknown owner. */
    function Upgradable(owner: string): (r: Option<bool>)
      reads this, petDict.Values
      ensures r.Some? <==> HavePet(owner)
      ensures r.Some? ==> (r.value <==> petDict[owner].upgradeTimes > 0)
    {
      if owner in petDict then Some(petDict[owner].upgradeTimes > 0) else None
    }

    constructor ()
      ensures Valid() && petDict == map[] && battleWait == []
    {
      petDict := map[];
      battleWait := [];
    }

    /** The storage step of `new_pet`: without a well-formed answer from the model nothing
        happens; otherwise a new pet is filed under the owner, replacing any earlier one. */
    method NewPet(owner: string, response: Option<GetPetResponse>, now: int) returns (p: Pet?)
      requires Valid()
      modifies this
      ensures Valid() && battleWait == old(battleWait)
      ensures response.None? ==> p == null && petDict == old(petDict)
      ensures response.Some? ==>
        && p != null && fresh(p) && petDict == old(petDict)[owner := p]
        && p.Info() == PetInfo(owner, response.value.name, response.value.species, response.value.description,
                               response.value.health, response.value.height, response.value.weight,
                               0, 0, 0, 0, now, [FirstSkill])
    {
      if response.None? {
        return null;
      }
      p := new Pet(owner, response.value, now);
      petDict := petDict[owner := p];
    }

    /** `delete_pet(owner)`: removes the owner's entry; `found` is false for the `KeyError`
        of an unknown owner, which changes nothing. */
    method DeletePet(owner: string) returns (found: bool)
      requires Valid()
      modifies this
      ensures Valid() && battleWait == old(battleWait)
      ensures found == (owner in old(petDict)) && petDict == old(petDict) - {owner}
    {
      found := owner in petDict;
      petDict := petDict - {owner};
    }

    /** `add_food_pet(owner)`: one more food for that pet only. */
    method AddFoodPet(owner: string) returns (found: bool)
      requires Valid()
      modifies petDict.Values
      ensures Valid() && found == (owner in petDict)
      ensures found ==> petDict[owner].Info() == old(petDict[owner].Info()).(foodAmount := old(petDict[owner].foodAmount) + 1)
      ensures forall o | o in petDict && o != owner :: petDict[o].Info() == old(petDict[o].Info())
    {
      found := owner in petDict;
      if found {
        var p := petDict[owner];
        p.foodAmount := p.foodAmount + 1;
      }
    }

    /** `feed_pet(owner)` at time `now`: the pet's `feed`. */
    method FeedPet(owner: string, now: int) returns (found: bool, ok: bool, reason: string)
      requires Valid()
      modifies petDict.Values
      ensures Valid() && found == (owner in petDict)
      ensures found ==>
        var r := FeedResult(old(petDict[owner].Info()), now);
        petDict[owner].Info() == r.info && ok == r.ok && reason == r.reason
      ensures forall o | o in petDict && o != owner :: petDict[o].Info() == old(petDict[o].Info())
    {
      found := owner in petDict;
      if found {
        ok, reason := petDict[owner].Feed(now);
      } else {
        ok, reason := false, "";
      }
    }

    /** The storage step of `upgrade_pet`: without a skill from the model nothing changes;
        otherwise the skill is learnt and the pet's `upgrade` runs, whatever it answers. */
    method UpgradePet(owner: string, skill: Option<Skill>) returns (found: bool, learnt: Option<Skill>)
      requires Valid()
      modifies petDict.Values
      ensures Valid() && found == (owner in petDict)
      ensures found && skill.None? ==> learnt.None? && petDict[owner].Info() == old(petDict[owner].Info())
      ensures found && skill.Some? ==>
        && learnt == skill
        && var before := old(petDict[owner].Info());
          petDict[owner].Info() == LevelUpResult(before.(skills := before.skills + [skill.value])).info
      ensures forall o | o in petDict && o != owner :: petDict[o].Info() == old(petDict[o].Info())
    {
      found := owner in petDict;
      if !found || skill.None? {
        return found, None;
      }
      var p := petDict[owner];
      p.skills := p.skills + [skill.value];
      var _, _ := p.Upgrade();
      learnt := skill;
    }

    /** `battle_add_pet(owner)`: the owner's pet joins the end of the queue unless it is
        already waiting. */
    method BattleAddPet(owner: string) returns (found: bool)
      requires Valid()
      modifies this
      ensures Valid() && petDict == old(petDict) && found == (owner in petDict)
      ensures !found || petDict[owner] in old(battleWait) ==> battleWait == old(battleWait)
      ensures found && petDict[owner] !in old(battleWait) ==> battleWait == old(battleWait) + [petDict[owner]]
      ensures Distinct(old(battleWait)) ==> Distinct(battleWait)
    {
      found := owner in petDict;
      if found && petDict[owner] !in battleWait {
        battleWait := battleWait + [petDict[owner]];
      }
    }

    /** `battle_pet` with the model's account `text` (`None` when the call failed): no battle
        with an empty queue; a result read from the account empties the queue; an account
        that names no waiting pet leaves it. */
    method BattlePet(text: Option<string>) returns (r: Option<BattleResult>)
      requires Valid()
      modifies this
      ensures Valid() && petDict == old(petDict)
      ensures old(battleWait) == [] || text.None? ==> r.None? && battleWait == old(battleWait)
      ensures old(battleWait) != [] && text.Some? ==> r == ReadBattle(text.value, Owners(old(battleWait)))
      ensures battleWait == if r.Some? then [] else old(battleWait)
    {
      if battleWait == [] || text.None? {
        return None;
      }
      r := ReadBattle(text.value, Owners(battleWait));
      if r.Some? {
        battleWait := [];
      }
    }
  }

  /** The owners of the queued pets, in queue order. */
  function Owners(pets: seq<Pet>): (r: seq<string>)
    ensures |r| == |pets| && forall i | 0 <= i < |pets| :: r[i] == pets[i].owner
  {
    seq(|pets|, i requires 0 <= i < |pets| => pets[i].owner)
  }

  /** No pet waits twice. */
  predicate Distinct(pets: seq<Pet>) {
    forall i, j | 0 <= i < j < |pets| :: pets[i] != pets[j]
  }
}
