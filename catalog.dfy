/** The song records of the catalog, as the metadata document delivers them. */
module Catalog {
  import opened Base

  /**
   * One entry of `metadata.songs`. Optional JSON fields are `Option`s; an
   * empty string stands for a present-but-empty value, which JavaScript
   * treats as falsy.
   */
  datatype Song = Song(
    id: string,
    title: Option<string>,
    singers: Option<seq<string>>,
    album: Option<string>,
    albumImage: Option<string>,
    coverImage: string,
    audioUrl: string,
    language: Option<string>,
    genre: Option<string>,
    year: Option<int>,
    musicBy: Option<string>,
    youtubeUrl: Option<string>)

  /** JavaScript truthiness of an optional string field. */
  predicate Truthy(v: Option<string>) {
    v.Some? && v.value != ""
  }

  /** The catalog invariant of the data model: identifiers are unique. */
  predicate UniqueIds(songs: seq<Song>) {
    forall i, j :: 0 <= i < j < |songs| ==> songs[i].id != songs[j].id
  }

  /** `songs.findIndex(s => s.id === id)`: the first index with that id, or -1. */
  function FindById(songs: seq<Song>, id: string): (r: int)
    ensures -1 <= r < |songs|
    ensures r == -1 <==> forall j :: 0 <= j < |songs| ==> songs[j].id != id
    ensures r != -1 ==> songs[r].id == id && forall j :: 0 <= j < r ==> songs[j].id != id
    decreases |songs|
  {
    if songs == [] then -1
    else if songs[0].id == id then 0
    else
      var k := FindById(songs[1..], id);
      if k == -1 then -1 else k + 1
  }

  /** In a catalog with unique ids, the index of a song's own id is that song's index. */
  lemma FindOwnId(songs: seq<Song>, i: nat)
    requires UniqueIds(songs) && i < |songs|
    ensures FindById(songs, songs[i].id) == i
  {
  }
}
