/** The catalogue records the playlist store and the player work with
    (`Singer`, `Album`, `Song`, `PlayList`), and the field check a `Song` goes
    through when it is built from named fields. */
module MusicData {
  import opened Wrappers
  import PyStr

  datatype Singer = Singer(name: string, id: string)

  datatype Album = Album(name: string, id: string)

  /** `album` is the only optional field; it is `None` unless given. */
  datatype Song = Song(link: string, id: string, name: string, singers: seq<Singer>, album: Option<Album> := None)

  /** A playlist is its id plus an ordered list of songs. */
  datatype PlayList = PlayList(id: string, songs: seq<Song>)

  /** The named fields a caller may pass when building a `Song`; an absent field is `None`. */
  datatype SongFields = SongFields(
    link: Option<string>,
    id: Option<string>,
    name: Option<string>,
    singers: Option<seq<Singer>>,
    album: Option<Album>)

  /** The first required field that is missing, in declaration order. */
  function MissingField(f: SongFields): Option<string> {
    if f.link.None? then Some("link")
    else if f.id.None? then Some("id")
    else if f.name.None? then Some("name")
    else if f.singers.None? then Some("singers")
    else None
  }

  /** Building a `Song` from named fields: every field without a default must be present,
      otherwise the record is refused and the missing field is named. */
  function BuildSong(f: SongFields): (r: Reply<Song>)
    ensures r.Ok? <==> f.link.Some? && f.id.Some? && f.name.Some? && f.singers.Some?
    ensures r.Ok? ==>
      && r.value.link == f.link.value && r.value.id == f.id.value
      && r.value.name == f.name.value && r.value.singers == f.singers.value
      && r.value.album == f.album
    ensures r.Err? ==> r.reason in ["link", "id", "name", "singers"]
  {
    match MissingField(f)
    case Some(field) => Err(field)
    case None => Ok(Song(f.link.value, f.id.value, f.name.value, f.singers.value, f.album))
  }

  /** The fields a song is built from. */
  function FieldsOf(s: Song): SongFields {
    SongFields(Some(s.link), Some(s.id), Some(s.name), Some(s.singers), s.album)
  }

  /** Every song can be rebuilt from its own fields. */
  lemma BuildSongFromFields(s: Song)
    ensures BuildSong(FieldsOf(s)) == Ok(s)
  {
  }

  /** A song built without a `link` is refused, whatever else is given. */
  lemma SongWithoutLinkIsRefused(f: SongFields)
    requires f.link.None?
    ensures BuildSong(f) == Err("link")
  {
  }

  /** The singers' names joined with single spaces, as the "now playing" text shows them. */
  function SingerNames(singers: seq<Singer>): (r: string)
    ensures singers == [] ==> r == ""
    ensures |singers| == 1 ==> r == singers[0].name
  {
    if singers == [] then "" else PyStr.Join(Names(singers), ' ')
  }

  function Names(singers: seq<Singer>): (r: seq<string>)
    ensures |r| == |singers|
    ensures forall i | 0 <= i < |r| :: r[i] == singers[i].name
  {
    if singers == [] then [] else [singers[0].name] + Names(singers[1..])
  }

  /** When no singer name contains a space, the joined text splits back into the names. */
  lemma SingerNamesSplit(singers: seq<Singer>)
    requires singers != []
    requires forall i | 0 <= i < |singers| :: ' ' !in singers[i].name
    ensures PyStr.Split(SingerNames(singers), ' ') == Names(singers)
  {
    PyStr.SplitJoin(Names(singers), ' ');
  }
}
