/**
 * The single mutable state record of js/state.js and the shared audio
 * element, together with the names of the views the state can select.
 */
module State {
  import opened Base
  import opened Catalog

  const SONGS_VIEW := "songs"
  const ALBUMS_VIEW := "albums"
  const ALBUM_DETAIL_VIEW := "album_detail"
  const LIST_STYLE := "list"

  /**
   * The `state` object. `filters` is the vocabulary document, kept as a map
   * from its keys (`languages`, `genres`, …) to the offered values.
   * `displayStyle` is not declared by the record; js/ui.js adds it on the
   * first style toggle, so it starts absent.
   */
  class AppState {
    var songsData: seq<Song>
    var visibleSongs: seq<Song>
    var filters: map<string, seq<string>>
    var currentSongIndex: int
    var isPlaying: bool
    var viewMode: string
    var currentAlbum: Option<string>
    var displayStyle: Option<string>

    constructor ()
      ensures songsData == [] && visibleSongs == [] && filters == map[]
      ensures currentSongIndex == -1 && !isPlaying
      ensures viewMode == SONGS_VIEW && currentAlbum == None && displayStyle == None
    {
      songsData := [];
      visibleSongs := [];
      filters := map[];
      currentSongIndex := -1;
      isPlaying := false;
      viewMode := SONGS_VIEW;
      currentAlbum := None;
      displayStyle := None;
    }
  }

  /** The `Audio` element: only the source it was last given is modelled. */
  class Media {
    var src: string

    constructor ()
      ensures src == ""
    {
      src := "";
    }
  }

  /** The three renderers `render` dispatches to. */
  datatype View = SongsList | AlbumGrid | AlbumDetail

  /** `render`: the renderer a view mode selects; any other mode renders nothing. */
  function RendererFor(mode: string): (r: Option<View>)
    ensures r.Some? <==> mode in {SONGS_VIEW, ALBUMS_VIEW, ALBUM_DETAIL_VIEW}
    ensures r == Some(SongsList) <==> mode == SONGS_VIEW
    ensures r == Some(AlbumGrid) <==> mode == ALBUMS_VIEW
    ensures r == Some(AlbumDetail) <==> mode == ALBUM_DETAIL_VIEW
  {
    if mode == SONGS_VIEW then Some(SongsList)
    else if mode == ALBUMS_VIEW then Some(AlbumGrid)
    else if mode == ALBUM_DETAIL_VIEW then Some(AlbumDetail)
    else None
  }

  /** The list layout is used exactly when the style is `'list'`; absent or anything else is the grid. */
  predicate IsListLayout(style: Option<string>) {
    style == Some(LIST_STYLE)
  }

  lemma GridUnlessList(style: Option<string>)
    ensures style == None ==> !IsListLayout(style)
    ensures IsListLayout(style) <==> style.Some? && style.value == LIST_STYLE
  {
  }
}
