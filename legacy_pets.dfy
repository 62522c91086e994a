/** The first pet game (`Pet.py`): a pet with a level and a food store that can be fed once
    six hours have passed since it was last fed, and the table of pets by owner. Times are
    integer microseconds; what the language model produced is passed in. */
module LegacyPets {
  import opened Wrappers
  import opened Pets

  /** Six hours on the microsecond clock. */
  const SixHours := 6 * 60 * 60 * 1_000_000

  /** The pet's one skill at birth. */
  const FirstLegacySkill := "逃跑"

  /** `feed()` on a pet with `food` left, last fed at `lastFeed`, at time `now`: the food left
      afterwards and the answer. */
  function LegacyFeedResult(food: int, lastFeed: int, now: int): (r: (int, string))
    ensures food == 0 ==> r == (food, NoFood)
    ensures food != 0 && now - lastFeed < SixHours ==> r == (food, Full)
    ensures r.1 == Fed <==> food != 0 && now - lastFeed >= SixHours
    ensures r.1 == Fed ==> r.0 == food - 1
    ensures food >= 0 ==> r.0 >= 0
  {
    if food == 0 then (food, NoFood)
    else if now - lastFeed < SixHours then (food, Full)
    else (food - 1, Fed)
  }

  /** Both games answer "NoFood" on an empty store. Once six hours have passed since the last
      feed, a pet with food is fed in both; the current game then also counts the feed
      towards the next level. Neither game moves `lastFeed`. */
  lemma FeedAgreesWithCurrentGame(i: PetInfo, now: int)
    requires now - i.lastFeed >= SixHours || i.foodAmount == 0
    ensures var r := FeedResult(i, now);
      var l := LegacyFeedResult(i.foodAmount, i.lastFeed, now);
      && (r.ok <==> l.1 == Fed)
      && r.info.foodAmount == l.0
      && (!r.ok ==> r.reason == l.1)
  {
  }

  class LegacyPet {
    const owner: string
    const name: string
    const species: string
    const description: string
    const health: int
    const height: int
    const weight: int
    var level: int
    var foodAmount: int
    var lastFeed: int
    var skills: seq<string>

    predicate Valid()
      reads this
    {
      level >= 0 && foodAmount >= 0
    }

    /** `create_pet(owner, response)` at time `now`: level 0, no food, fed last at its
        creation, and the one skill "逃跑". */
    constructor (owner: string, r: GetPetResponse, now: int)
      ensures Valid() && this.owner == owner
      ensures name == r.name && species == r.species && description == r.description
      ensures health == r.health && height == r.height && weight == r.weight
      ensures level == 0 && foodAmount == 0 && lastFeed == now && skills == [FirstLegacySkill]
    {
      this.owner := owner;
      name := r.name;
      species := r.species;
      description := r.description;
      health := r.health;
      height := r.height;
      weight := r.weight;
      level := 0;
      foodAmount := 0;
      lastFeed := now;
      skills := [FirstLegacySkill];
    }

    method Feed(now: int) returns (reason: string)
      requires Valid()
      modifies this
      ensures Valid()
      ensures (foodAmount, reason) == LegacyFeedResult(old(foodAmount), old(lastFeed), now)
      ensures level == old(level) && lastFeed == old(lastFeed) && skills == old(skills)
    {
      if foodAmount == 0 {
        return NoFood;
      }
      if now - lastFeed < SixHours {
        return Full;
      }
      foodAmount := foodAmount - 1;
      return Fed;
    }

    /** `upgrade()`: one level more, and the new level is the answer. */
    method Upgrade() returns (newLevel: int)
      requires Valid()
      modifies this
      ensures Valid() && level == old(level) + 1 && newLevel == level
      ensures foodAmount == old(foodAmount) && lastFeed == old(lastFeed) && skills == old(skills)
    {
      level := level + 1;
      newLevel := level;
    }
  }

  /** What the language model's call gave `get_pet`: nothing (the call failed), an answer
      that is not a pet description, or a pet description. */
  datatype PetReply = NoReply | Malformed | Described(r: GetPetResponse)

  class LegacyPetApi {
    var petDict: map<string, LegacyPet>

    predicate Valid()
      reads this, petDict.Values
    {
      forall o | o in petDict :: petDict[o].Valid() && petDict[o].owner == o
    }

    constructor ()
      ensures Valid() && petDict == map[]
    {
      petDict := map[];
    }

    /** The storage step of `get_pet`: a failed call gives no pet; an answer that is not a
        pet description raises (`raised`) before anything is stored; otherwise the new pet
        is filed under the owner, replacing any earlier one. */
    method GetPet(owner: string, reply: PetReply, now: int) returns (p: LegacyPet?, raised: bool)
      requires Valid()
      modifies this
      ensures Valid()
      ensures raised <==> reply.Malformed?
      ensures !reply.Described? ==> p == null && petDict == old(petDict)
      ensures reply.Described? ==>
        && p != null && fresh(p) && petDict == old(petDict)[owner := p]
        && p.level == 0 && p.foodAmount == 0 && p.lastFeed == now && p.skills == [FirstLegacySkill]
    {
      match reply
      case NoReply =>
        return null, false;
      case Malformed =>
        return null, true;
      case Described(r) =>
        p := new LegacyPet(owner, r, now);
        petDict := petDict[owner := p];
        raised := false;
    }

    /** `PetApi.feed(owner)` only looks the pet up: it feeds nothing, and an unknown owner is
        the `KeyError` (`found` false). */
    method Feed(owner: string) returns (found: bool)
      ensures found <==> owner in petDict
    {
      found := owner in petDict;
    }
  }
}
