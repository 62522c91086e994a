/** The playlist store and play cursor every music backend shares (`MusicApi`): a table of
    named playlists, among them the special list `"current"` that is being played, and the
    index of the song being played in it (-1 before playback starts). Every operation answers
    with a `BaseApiResponse`; an exception that escapes an operation is turned by the `api`
    wrapper into a failure whose reason is `"UnknownError: <type> <message>"`. */
module MusicApiModel {
  import opened Wrappers
  import opened BaseApi
  import opened MusicData
  import opened DictOrder
  import opened PyList

  const CurrentListId := "current"

  const NotFound := "歌单未找到。"
  const AlreadyExists := "歌单Id已存在。"
  const OutOfRange := "索引超出范围。"
  const NoListCreated := "未创建任何歌单。"
  const CurrentEmpty := "当前歌单为空。"
  const NotStarted := "还未开始播放。"
  /** What the `api` wrapper reports when `"current"` has been deleted and is looked up. */
  const CurrentMissing := "UnknownError: <class 'KeyError'> 'current'"
  /** What the `api` wrapper reports when the cursor points past the end of `"current"`. */
  const StaleIndex := "UnknownError: <class 'IndexError'> list index out of range"

  /** The data a successful response carries. */
  datatype Payload =
    | Flag(b: bool)
    | Track(song: Song)
    | List(list: PlayList)
    | Lists(ids: seq<string>, lists: map<string, PlayList>)

  /** Whether a response's `data` is truthy, as the cursor operations test it: only a `True`
      flag is; a failure's `None` is not. */
  predicate Truthy(d: Option<Payload>) {
    d == Some(Flag(true))
  }

  /** The cursor after moving `delta` songs along a list of `len` songs, with Python's
      non-negative `%`. */
  function Step(index: int, delta: int, len: nat): (r: nat)
    requires len > 0
    ensures r < len
    ensures 0 <= index + delta < len ==> r == index + delta
    ensures index + delta == len ==> r == 0
    ensures index + delta == -1 ==> r == len - 1
  {
    (index + delta) % len
  }

  /** Before playback starts (-1), `next` goes to the first song. */
  lemma NextFromNotStartedIsFirst(len: nat)
    requires len > 0
    ensures Step(-1, 1, len) == 0
  {
  }

  /** `next` from the last song wraps to the first, and `previous` from the first wraps to the
      last. */
  lemma StepWrapsAround(len: nat)
    requires len > 0
    ensures Step(len - 1, 1, len) == 0
    ensures Step(0, -1, len) == len - 1
  {
  }

  /** `previous` undoes `next` and `next` undoes `previous` on a cursor inside the list. */
  lemma PreviousUndoesNext(index: int, len: nat)
    requires 0 <= index < len
    ensures Step(Step(index, 1, len), -1, len) == index
    ensures Step(Step(index, -1, len), 1, len) == index
  {
    if index == len - 1 {
      assert Step(index, 1, len) == 0;
    } else {
      assert Step(index, 1, len) == index + 1;
    }
    if index == 0 {
      assert Step(index, -1, len) == len - 1;
    } else {
      assert Step(index, -1, len) == index - 1;
    }
  }

  /** Before playback starts, `previous` on a list of at least two songs goes to the song
      before the last one, not to the last. */
  lemma PreviousFromNotStartedSkipsLast(len: nat)
    requires len >= 2
    ensures Step(-1, -1, len) == len - 2
  {
  }

  class MusicApi {
    var playlists: map<string, PlayList>
    /** The keys of `playlists` in insertion order. */
    var order: seq<string>
    var currentIndex: int

    /** The cursor is never below -1, the order lists the playlist ids, and every playlist is
        stored under its own id. */
    predicate Valid()
      reads this
    {
      && currentIndex >= -1
      && Tracks(order, playlists)
      && forall id | id in playlists :: playlists[id].id == id
    }

    /** A new store holds only the empty `"current"` list, and nothing is playing. */
    constructor ()
      ensures Valid()
      ensures playlists == map[CurrentListId := PlayList(CurrentListId, [])]
      ensures order == [CurrentListId]
      ensures currentIndex == -1
    {
      playlists := map[CurrentListId := PlayList(CurrentListId, [])];
      order := [CurrentListId];
      currentIndex := -1;
    }

    // -------------------------------------------------------------------------
    // Reads

    function ListShow(listId: string): (r: Response<Payload>)
      reads this
      ensures Produced(r)
      ensures r.succeed <==> listId in playlists
      ensures r.succeed ==> r.data == Some(List(playlists[listId]))
      ensures !r.succeed ==> r.reason == Some(NotFound)
    {
      if listId !in playlists then Failure(NotFound) else Success(Some(List(playlists[listId])))
    }

    /** Every playlist except `"current"`, in insertion order; a failure when there is none,
        and the `KeyError` report when `"current"` itself is gone. */
    function ListList(): (r: Response<Payload>)
      reads this
      ensures Produced(r)
      ensures CurrentListId !in playlists ==> r == Failure(CurrentMissing)
      ensures CurrentListId in playlists ==>
        (r.succeed <==> exists id | id in playlists :: id != CurrentListId)
      ensures CurrentListId in playlists && !r.succeed ==> r == Failure(NoListCreated)
      ensures r.succeed ==> r.data == Some(Lists(Drop(order, CurrentListId), playlists - {CurrentListId}))
    {
      if CurrentListId !in playlists then Failure(CurrentMissing)
      else
        var others := playlists - {CurrentListId};
        assert forall id | id in playlists :: id in others.Keys || id == CurrentListId;
        if others.Keys == {} then Failure(NoListCreated)
        else
          Success(Some(Lists(Drop(order, CurrentListId), others)))
    }

    function IsListEmpty(listId: string): (r: Response<Payload>)
      reads this
      ensures Produced(r)
      ensures r.succeed <==> listId in playlists
      ensures r.succeed ==> r.data == Some(Flag(|playlists[listId].songs| == 0))
      ensures !r.succeed ==> r.reason == Some(NotFound)
    {
      if listId !in playlists then Failure(NotFound)
      else Success(Some(Flag(|playlists[listId].songs| == 0)))
    }

    /** `is_list_created` never fails: it answers whether the id is taken. */
    function IsListCreated(listId: string): (r: Response<Payload>)
      reads this
      ensures r == Success(Some(Flag(listId in playlists)))
    {
      Success(Some(Flag(listId in playlists)))
    }

    function CurrentShow(): (r: Response<Payload>)
      reads this
      ensures r.succeed <==> CurrentListId in playlists
    {
      ListShow(CurrentListId)
    }

    function IsCurrentEmpty(): (r: Response<Payload>)
      reads this
      ensures r.succeed <==> CurrentListId in playlists
    {
      IsListEmpty(CurrentListId)
    }

    /** The test the cursor operations start with: `"current"` exists and has no songs. A
        missing `"current"` makes the test fail, and the operation goes on. */
    predicate CurrentIsEmpty()
      reads this
      ensures CurrentIsEmpty() <==> CurrentListId in playlists && |playlists[CurrentListId].songs| == 0
    {
      Truthy(IsCurrentEmpty().data)
    }

    /** The song under the cursor. */
    function Now(): (r: Response<Payload>)
      reads this
      requires Valid()
      ensures Produced(r)
      ensures r.succeed <==> CurrentListId in playlists && 0 <= currentIndex < |playlists[CurrentListId].songs|
      ensures r.succeed ==> r.data == Some(Track(playlists[CurrentListId].songs[currentIndex]))
      ensures CurrentIsEmpty() ==> r == Failure(CurrentEmpty)
      ensures !CurrentIsEmpty() && currentIndex == -1 ==> r == Failure(NotStarted)
      ensures currentIndex >= 0 && CurrentListId !in playlists ==> r == Failure(CurrentMissing)
      ensures !CurrentIsEmpty() && CurrentListId in playlists && currentIndex >= |playlists[CurrentListId].songs|
        ==> r == Failure(StaleIndex)
    {
      if CurrentIsEmpty() then Failure(CurrentEmpty)
      else if currentIndex == -1 then Failure(NotStarted)
      else if CurrentListId !in playlists then Failure(CurrentMissing)
      else if currentIndex >= |playlists[CurrentListId].songs| then Failure(StaleIndex)
      else Success(Some(Track(playlists[CurrentListId].songs[currentIndex])))
    }

    // -------------------------------------------------------------------------
    // Playlist table

    /** A new, empty playlist under a fresh id; an existing id is refused. */
    method ListCreate(listId: string) returns (r: Response<Payload>)
      requires Valid()
      modifies this
      ensures Valid() && Produced(r)
      ensures currentIndex == old(currentIndex)
      ensures listId in old(playlists) ==>
        r == Failure(AlreadyExists) && playlists == old(playlists) && order == old(order)
      ensures listId !in old(playlists) ==>
        && r == Success(None)
        && playlists == old(playlists)[listId := PlayList(listId, [])]
        && order == old(order) + [listId]
    {
      if listId in playlists {
        return Failure(AlreadyExists);
      }
      PutTracks(order, playlists, listId, PlayList(listId, []));
      playlists := playlists[listId := PlayList(listId, [])];
      order := Put(order, listId);
      r := Success(None);
    }

    /** `list_dst` becomes a copy of `list_src`'s songs under its own id, replacing any list
        already there (which keeps its place in the order). */
    method ListCopy(listSrc: string, listDst: string) returns (r: Response<Payload>)
      requires Valid()
      modifies this
      ensures Valid() && Produced(r)
      ensures currentIndex == old(currentIndex)
      ensures listSrc !in old(playlists) ==>
        r == Failure(NotFound) && playlists == old(playlists) && order == old(order)
      ensures listSrc in old(playlists) ==>
        && r == Success(None)
        && playlists == old(playlists)[listDst := PlayList(listDst, old(playlists)[listSrc].songs)]
        && order == Put(old(order), listDst)
    {
      if listSrc !in playlists {
        return Failure(NotFound);
      }
      var copy := PlayList(listDst, playlists[listSrc].songs);
      PutTracks(order, playlists, listDst, copy);
      playlists := playlists[listDst := copy];
      order := Put(order, listDst);
      r := Success(None);
    }

    /** Playing a list copies its songs into `"current"` and puts the cursor on the first
        song, even when the list is empty. */
    method ListPlay(listId: string) returns (r: Response<Payload>)
      requires Valid()
      modifies this
      ensures Valid() && Produced(r)
      ensures listId !in old(playlists) ==>
        && r == Failure(NotFound)
        && playlists == old(playlists) && order == old(order) && currentIndex == old(currentIndex)
      ensures listId in old(playlists) ==>
        && r == Success(None)
        && playlists == old(playlists)[CurrentListId := PlayList(CurrentListId, old(playlists)[listId].songs)]
        && order == Put(old(order), CurrentListId)
        && currentIndex == 0
    {
      if listId !in playlists {
        return Failure(NotFound);
      }
      var _ := CurrentCopy(listId);
      currentIndex := 0;
      r := Success(None);
    }

    /** Removes exactly the named list; any list, `"current"` included, can be removed. */
    method ListDelete(listId: string) returns (r: Response<Payload>)
      requires Valid()
      modifies this
      ensures Valid() && Produced(r)
      ensures currentIndex == old(currentIndex)
      ensures listId !in old(playlists) ==>
        r == Failure(NotFound) && playlists == old(playlists) && order == old(order)
      ensures listId in old(playlists) ==>
        && r == Success(None)
        && playlists == old(playlists) - {listId}
        && order == Drop(old(order), listId)
    {
      if listId !in playlists {
        return Failure(NotFound);
      }
      DropTracks(order, playlists, listId);
      playlists := playlists - {listId};
      order := Drop(order, listId);
      r := Success(None);
    }

    /** Appends the songs at the end of the named list and touches nothing else. */
    method ListAdd(listId: string, songs: seq<Song>) returns (r: Response<Payload>)
      requires Valid()
      modifies this
      ensures Valid() && Produced(r)
      ensures order == old(order) && currentIndex == old(currentIndex)
      ensures listId !in old(playlists) ==> r == Failure(NotFound) && playlists == old(playlists)
      ensures listId in old(playlists) ==>
        && r == Success(None)
        && playlists == old(playlists)[listId := PlayList(listId, old(playlists)[listId].songs + songs)]
    {
      if listId !in playlists {
        return Failure(NotFound);
      }
      playlists := playlists[listId := PlayList(listId, playlists[listId].songs + songs)];
      r := Success(None);
    }

    /** `songs.pop(index)`: a negative index counts from the end; outside the list nothing
        changes and the failure says so. The cursor is not adjusted. */
    method ListRemove(listId: string, index: int) returns (r: Response<Payload>)
      requires Valid()
      modifies this
      ensures Valid() && Produced(r)
      ensures order == old(order) && currentIndex == old(currentIndex)
      ensures listId !in old(playlists) ==> r == Failure(NotFound) && playlists == old(playlists)
      ensures listId in old(playlists) ==>
        var songs := old(playlists)[listId].songs;
        match PopIndex(|songs|, index)
        case None => r == Failure(OutOfRange) && playlists == old(playlists)
        case Some(k) =>
          r == Success(None) && playlists == old(playlists)[listId := PlayList(listId, RemoveAt(songs, k))]
    {
      if listId !in playlists {
        return Failure(NotFound);
      }
      var songs := playlists[listId].songs;
      match PopIndex(|songs|, index)
      case None =>
        r := Failure(OutOfRange);
      case Some(k) =>
        playlists := playlists[listId := PlayList(listId, RemoveAt(songs, k))];
        r := Success(None);
    }

    /** `songs.insert(index, song)`: the index is clamped, so this fails only for an unknown
        list. The cursor is not adjusted. */
    method ListInsert(listId: string, index: int, song: Song) returns (r: Response<Payload>)
      requires Valid()
      modifies this
      ensures Valid() && Produced(r)
      ensures order == old(order) && currentIndex == old(currentIndex)
      ensures r.succeed <==> listId in old(playlists)
      ensures !r.succeed ==> r == Failure(NotFound) && playlists == old(playlists)
      ensures r.succeed ==>
        && r == Success(None)
        && playlists == old(playlists)[listId := PlayList(listId, InsertAt(old(playlists)[listId].songs, index, song))]
    {
      if listId !in playlists {
        return Failure(NotFound);
      }
      playlists := playlists[listId := PlayList(listId, InsertAt(playlists[listId].songs, index, song))];
      r := Success(None);
    }

    method ListClear(listId: string) returns (r: Response<Payload>)
      requires Valid()
      modifies this
      ensures Valid() && Produced(r)
      ensures order == old(order) && currentIndex == old(currentIndex)
      ensures listId !in old(playlists) ==> r == Failure(NotFound) && playlists == old(playlists)
      ensures listId in old(playlists) ==>
        r == Success(None) && playlists == old(playlists)[listId := PlayList(listId, [])]
    {
      if listId !in playlists {
        return Failure(NotFound);
      }
      playlists := playlists[listId := PlayList(listId, [])];
      r := Success(None);
    }

    // -------------------------------------------------------------------------
    // The current list

    /** Inserts at the cursor's position, so before playback starts (-1) the song goes just
        before the last one. */
    method CurrentInsert(song: Song) returns (r: Response<Payload>)
      requires Valid()
      modifies this
      ensures Valid() && Produced(r)
      ensures order == old(order) && currentIndex == old(currentIndex)
      ensures r.succeed <==> CurrentListId in old(playlists)
      ensures !r.succeed ==> r == Failure(NotFound) && playlists == old(playlists)
      ensures r.succeed ==>
        playlists == old(playlists)[CurrentListId :=
          PlayList(CurrentListId, InsertAt(old(playlists)[CurrentListId].songs, old(currentIndex), song))]
    {
      r := ListInsert(CurrentListId, currentIndex, song);
    }

    method CurrentAdd(song: Song) returns (r: Response<Payload>)
      requires Valid()
      modifies this
      ensures Valid() && Produced(r)
      ensures order == old(order) && currentIndex == old(currentIndex)
      ensures CurrentListId !in old(playlists) ==> r == Failure(NotFound) && playlists == old(playlists)
      ensures CurrentListId in old(playlists) ==>
        && r == Success(None)
        && playlists == old(playlists)[CurrentListId := PlayList(CurrentListId, old(playlists)[CurrentListId].songs + [song])]
    {
      r := ListAdd(CurrentListId, [song]);
    }

    method CurrentRemove(index: int) returns (r: Response<Payload>)
      requires Valid()
      modifies this
      ensures Valid() && Produced(r)
      ensures order == old(order) && currentIndex == old(currentIndex)
      ensures CurrentListId !in old(playlists) ==> r == Failure(NotFound) && playlists == old(playlists)
      ensures CurrentListId in old(playlists) ==>
        var songs := old(playlists)[CurrentListId].songs;
        match PopIndex(|songs|, index)
        case None => r == Failure(OutOfRange) && playlists == old(playlists)
        case Some(k) =>
          r == Success(None) && playlists == old(playlists)[CurrentListId := PlayList(CurrentListId, RemoveAt(songs, k))]
    {
      r := ListRemove(CurrentListId, index);
    }

    method CurrentCopy(listId: string) returns (r: Response<Payload>)
      requires Valid()
      modifies this
      ensures Valid() && Produced(r)
      ensures currentIndex == old(currentIndex)
      ensures listId !in old(playlists) ==>
        r == Failure(NotFound) && playlists == old(playlists) && order == old(order)
      ensures listId in old(playlists) ==>
        && r == Success(None)
        && playlists == old(playlists)[CurrentListId := PlayList(CurrentListId, old(playlists)[listId].songs)]
        && order == Put(old(order), CurrentListId)
    {
      r := ListCopy(listId, CurrentListId);
    }

    /** Empties `"current"` (when it exists) and always reports success; the cursor stays
        where it was. */
    method Clear() returns (r: Response<Payload>)
      requires Valid()
      modifies this
      ensures Valid()
      ensures r == Success(None)
      ensures order == old(order) && currentIndex == old(currentIndex)
      ensures CurrentListId in old(playlists) ==>
        playlists == old(playlists)[CurrentListId := PlayList(CurrentListId, [])]
      ensures CurrentListId !in old(playlists) ==> playlists == old(playlists)
    {
      var _ := ListClear(CurrentListId);
      r := Success(None);
    }

    // -------------------------------------------------------------------------
    // The cursor

    /** Moves the cursor by `delta` (with wrap-around) and answers with the new song. */
    method Move(delta: int) returns (r: Response<Payload>)
      requires Valid()
      modifies this
      ensures Valid() && Produced(r)
      ensures playlists == old(playlists) && order == old(order)
      ensures CurrentIsEmpty() ==> r == Failure(CurrentEmpty) && currentIndex == old(currentIndex)
      ensures CurrentListId !in playlists ==> r == Failure(CurrentMissing) && currentIndex == old(currentIndex)
      ensures CurrentListId in playlists && |playlists[CurrentListId].songs| > 0 ==>
        && currentIndex == Step(old(currentIndex), delta, |playlists[CurrentListId].songs|)
        && r.succeed && r == Now()
    {
      if CurrentIsEmpty() {
        return Failure(CurrentEmpty);
      }
      if CurrentListId !in playlists {
        return Failure(CurrentMissing);
      }
      currentIndex := Step(currentIndex, delta, |playlists[CurrentListId].songs|);
      r := Now();
    }

    method Next() returns (r: Response<Payload>)
      requires Valid()
      modifies this
      ensures Valid() && Produced(r)
      ensures playlists == old(playlists) && order == old(order)
      ensures CurrentIsEmpty() ==> r == Failure(CurrentEmpty) && currentIndex == old(currentIndex)
      ensures CurrentListId !in playlists ==> r == Failure(CurrentMissing) && currentIndex == old(currentIndex)
      ensures CurrentListId in playlists && |playlists[CurrentListId].songs| > 0 ==>
        && currentIndex == Step(old(currentIndex), 1, |playlists[CurrentListId].songs|)
        && r.succeed && r == Now()
    {
      r := Move(1);
    }

    method Previous() returns (r: Response<Payload>)
      requires Valid()
      modifies this
      ensures Valid() && Produced(r)
      ensures playlists == old(playlists) && order == old(order)
      ensures CurrentIsEmpty() ==> r == Failure(CurrentEmpty) && currentIndex == old(currentIndex)
      ensures CurrentListId !in playlists ==> r == Failure(CurrentMissing) && currentIndex == old(currentIndex)
      ensures CurrentListId in playlists && |playlists[CurrentListId].songs| > 0 ==>
        && currentIndex == Step(old(currentIndex), -1, |playlists[CurrentListId].songs|)
        && r.succeed && r == Now()
    {
      r := Move(-1);
    }

    /** Puts the cursor on song `index` (0-based) when it is inside `"current"`; otherwise the
        cursor stays. A negative index is refused before `"current"` is looked up. */
    method Jump(index: int) returns (r: Response<Payload>)
      requires Valid()
      modifies this
      ensures Valid() && Produced(r)
      ensures playlists == old(playlists) && order == old(order)
      ensures CurrentIsEmpty() ==> r == Failure(CurrentEmpty) && currentIndex == old(currentIndex)
      ensures !CurrentIsEmpty() && index < 0 ==> r == Failure(OutOfRange) && currentIndex == old(currentIndex)
      ensures CurrentListId !in playlists && index >= 0 ==>
        r == Failure(CurrentMissing) && currentIndex == old(currentIndex)
      ensures CurrentListId in playlists && |playlists[CurrentListId].songs| > 0 ==>
        && (r.succeed <==> 0 <= index < |playlists[CurrentListId].songs|)
        && (r.succeed ==> currentIndex == index && r == Now())
        && (!r.succeed ==> r == Failure(OutOfRange) && currentIndex == old(currentIndex))
    {
      if CurrentIsEmpty() {
        return Failure(CurrentEmpty);
      }
      if index < 0 {
        return Failure(OutOfRange);
      }
      if CurrentListId !in playlists {
        return Failure(CurrentMissing);
      }
      if index >= |playlists[CurrentListId].songs| {
        return Failure(OutOfRange);
      }
      currentIndex := index;
      r := Now();
    }

    /** `random.shuffle` of `"current"`, with the random outcome passed in as the new
        arrangement; it must be a permutation of the songs. */
    method Shuffle(arrangement: seq<Song>) returns (r: Response<Payload>)
      requires Valid()
      requires CurrentListId in playlists ==> multiset(arrangement) == multiset(playlists[CurrentListId].songs)
      modifies this
      ensures Valid() && Produced(r)
      ensures order == old(order) && currentIndex == old(currentIndex)
      ensures old(CurrentIsEmpty()) ==> r == Failure(CurrentEmpty) && playlists == old(playlists)
      ensures CurrentListId !in old(playlists) ==> r == Failure(CurrentMissing) && playlists == old(playlists)
      ensures CurrentListId in old(playlists) && |old(playlists)[CurrentListId].songs| > 0 ==>
        r == Success(None) && playlists == old(playlists)[CurrentListId := PlayList(CurrentListId, arrangement)]
    {
      if CurrentIsEmpty() {
        return Failure(CurrentEmpty);
      }
      if CurrentListId !in playlists {
        return Failure(CurrentMissing);
      }
      playlists := playlists[CurrentListId := PlayList(CurrentListId, arrangement)];
      r := Success(None);
    }
  }
}
