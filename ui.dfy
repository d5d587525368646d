/**
 * The state-changing part of js/ui.js: the filter engine behind
 * `applyFilters` / `resetFilters`, the album grouping of `renderAlbums`,
 * the album filter of `renderAlbumDetail`, the view and style toggles and
 * the active-card test. The HTML the renderers produce is not modelled.
 */
module Ui {
  import opened Base
  import opened Seqs
  import opened Text
  import opened Catalog
  import opened Utils
  import opened State

  // ---------------------------------------------------------------- filters

  /** The five `<select>` values; `""` is the "All" option. */
  datatype Tags = Tags(language: string, genre: string, year: string, singer: string, musicBy: string)

  /** What `applyFilters` reads: the tag values and the prepared search text. */
  datatype Selection = Selection(tags: Tags, search: string)

  const NO_TAGS := Tags("", "", "", "", "")

  /** The filter controls of the page; `search` is `None` when the page has no search box. */
  class Controls {
    var language: string
    var genre: string
    var year: string
    var singer: string
    var musicBy: string
    var search: Option<string>

    constructor (hasSearch: bool)
      ensures language == "" && genre == "" && year == "" && singer == "" && musicBy == ""
      ensures search == if hasSearch then Some("") else None
    {
      language, genre, year, singer, musicBy := "", "", "", "", "";
      search := if hasSearch then Some("") else None;
    }
  }

  /** `searchInput.value.toLowerCase().trim()`. */
  function SearchKey(raw: string): string {
    Trim(ToLower(raw))
  }

  function SelectionOf(c: Controls): Selection
    reads c
  {
    Selection(Tags(c.language, c.genre, c.year, c.singer, c.musicBy),
              match c.search case None => "" case Some(raw) => SearchKey(raw))
  }

  predicate YearMatches(year: string, song: Song) {
    year == "" || (song.year.Some? && IntToString(song.year.value) == year)
  }

  /** The five tag predicates of both revisions, ANDed. */
  predicate TagsMatch(tags: Tags, song: Song) {
    && (tags.language == "" || song.language == Some(tags.language))
    && (tags.genre == "" || song.genre == Some(tags.genre))
    && YearMatches(tags.year, song)
    && (tags.singer == "" || (song.singers.Some? && tags.singer in song.singers.value))
    && (tags.musicBy == "" || song.musicBy == Some(tags.musicBy))
  }

  /** The lowercased title, or `""` for a falsy title. */
  function TitleKey(song: Song): string {
    if Truthy(song.title) then ToLower(song.title.value) else ""
  }

  predicate SearchMatches(key: string, song: Song) {
    key == "" || Contains(TitleKey(song), key) || Contains(ToLower(GetAlbumName(song)), key)
  }

  predicate SongMatches(sel: Selection, song: Song) {
    TagsMatch(sel.tags, song) && SearchMatches(sel.search, song)
  }

  function Matches(sel: Selection): Song -> bool {
    song => SongMatches(sel, song)
  }

  /**
   * A year filter calls `song.year.toString()` on every song, so a song
   * without a year makes the whole filter throw.
   */
  predicate YearThrows(year: string, songs: seq<Song>) {
    year != "" && exists j :: 0 <= j < |songs| && songs[j].year.None?
  }

  /** The new `visibleSongs` computed by `applyFilters`, or the exception its callback raises. */
  function Visible(songs: seq<Song>, sel: Selection): Result<seq<Song>> {
    if YearThrows(sel.tags.year, songs) then Thrown("TypeError") else Ok(Filter(songs, Matches(sel)))
  }

  method ApplyFilters(st: AppState, c: Controls) returns (outcome: Outcome)
    modifies st`visibleSongs
    ensures match Visible(st.songsData, SelectionOf(c))
      case Ok(v) => st.visibleSongs == v && outcome == Completed
      case Thrown(e) => st.visibleSongs == old(st.visibleSongs) && outcome == Threw(e)
  {
    var visible := Visible(st.songsData, SelectionOf(c));
    if visible.Thrown? {
      return Threw(visible.error);
    }
    st.visibleSongs := visible.value;
    return Completed;
  }

  method ResetFilters(st: AppState, c: Controls)
    modifies c, st`visibleSongs
    ensures c.language == "" && c.genre == "" && c.year == "" && c.singer == "" && c.musicBy == ""
    ensures c.search == if old(c.search).Some? then Some("") else None
    ensures SelectionOf(c) == Selection(NO_TAGS, "")
    ensures st.visibleSongs == st.songsData
  {
    c.language, c.genre, c.year, c.singer, c.musicBy := "", "", "", "", "";
    if c.search.Some? {
      c.search := Some("");
    }
    assert SelectionOf(c) == Selection(NO_TAGS, "");
    var outcome := ApplyFilters(st, c);
    EmptySelectionKeepsAll(st.songsData);
  }

  /** The result of a successful filter is the catalog with some songs left out, in catalog order. */
  lemma VisibleIsSubsequence(songs: seq<Song>, sel: Selection)
    requires Visible(songs, sel).Ok?
    ensures IsSubsequence(Visible(songs, sel).value, songs)
  {
    FilterIsSubsequence(songs, Matches(sel));
  }

  /** Exactly the matching songs are visible, each as often as it is in the catalog. */
  lemma VisibleMembers(songs: seq<Song>, sel: Selection, song: Song)
    requires Visible(songs, sel).Ok?
    ensures song in Visible(songs, sel).value <==> song in songs && SongMatches(sel, song)
    ensures multiset(Visible(songs, sel).value)[song]
      == if SongMatches(sel, song) then multiset(songs)[song] else 0
  {
    FilterMember(songs, Matches(sel), song);
    FilterCount(songs, Matches(sel), song);
  }

  /** The filter fails exactly when a year is selected and some song has none. */
  lemma VisibleThrowsIff(songs: seq<Song>, sel: Selection)
    ensures Visible(songs, sel).Thrown? <==>
      sel.tags.year != "" && exists song :: song in songs && song.year.None?
  {
    if sel.tags.year != "" && exists song :: song in songs && song.year.None? {
      var song :| song in songs && song.year.None?;
      var j :| 0 <= j < |songs| && songs[j] == song;
    }
  }

  /** With nothing selected every song is visible, in catalog order. */
  lemma EmptySelectionKeepsAll(songs: seq<Song>)
    ensures Visible(songs, Selection(NO_TAGS, "")) == Ok(songs)
  {
    FilterKeepsAll(songs, Matches(Selection(NO_TAGS, "")));
  }

  /** The filter is the conjunction of six one-dimension filters. */
  lemma MatchesIsConjunction(sel: Selection, song: Song)
    ensures var t := sel.tags;
      SongMatches(sel, song) <==>
      && SongMatches(Selection(NO_TAGS.(language := t.language), ""), song)
      && SongMatches(Selection(NO_TAGS.(genre := t.genre), ""), song)
      && SongMatches(Selection(NO_TAGS.(year := t.year), ""), song)
      && SongMatches(Selection(NO_TAGS.(singer := t.singer), ""), song)
      && SongMatches(Selection(NO_TAGS.(musicBy := t.musicBy), ""), song)
      && SongMatches(Selection(NO_TAGS, sel.search), song)
  {
  }

  /** Each dimension on its own: empty matches all, else equality or singer membership. */
  lemma OneDimension(v: string, song: Song)
    requires v != ""
    ensures SongMatches(Selection(NO_TAGS.(language := v), ""), song) <==> song.language == Some(v)
    ensures SongMatches(Selection(NO_TAGS.(genre := v), ""), song) <==> song.genre == Some(v)
    ensures SongMatches(Selection(NO_TAGS.(musicBy := v), ""), song) <==> song.musicBy == Some(v)
    ensures SongMatches(Selection(NO_TAGS.(singer := v), ""), song) <==>
      song.singers.Some? && v in song.singers.value
    ensures SongMatches(Selection(NO_TAGS.(year := v), ""), song) <==>
      song.year.Some? && IntToString(song.year.value) == v
  {
  }

  /** `song` is in the visible list that a selection produces. */
  predicate Shown(songs: seq<Song>, sel: Selection, song: Song) {
    Visible(songs, sel).Ok? && song in Visible(songs, sel).value
  }

  /** A selection that matches at least what `sel` matches, and throws no more often. */
  lemma Widens(songs: seq<Song>, sel: Selection, wider: Selection, song: Song)
    requires Shown(songs, sel, song)
    requires wider.tags.year == sel.tags.year || wider.tags.year == ""
    requires SongMatches(sel, song) ==> SongMatches(wider, song)
    ensures Shown(songs, wider, song)
  {
    VisibleMembers(songs, sel, song);
    VisibleMembers(songs, wider, song);
  }

  /** Clearing any one of the five selects, or the search box, can only show more songs. */
  lemma ClearingWidens(songs: seq<Song>, sel: Selection, song: Song)
    requires Shown(songs, sel, song)
    ensures Shown(songs, Selection(sel.tags.(language := ""), sel.search), song)
    ensures Shown(songs, Selection(sel.tags.(genre := ""), sel.search), song)
    ensures Shown(songs, Selection(sel.tags.(year := ""), sel.search), song)
    ensures Shown(songs, Selection(sel.tags.(singer := ""), sel.search), song)
    ensures Shown(songs, Selection(sel.tags.(musicBy := ""), sel.search), song)
    ensures Shown(songs, Selection(sel.tags, ""), song)
  {
    Widens(songs, sel, Selection(sel.tags.(language := ""), sel.search), song);
    Widens(songs, sel, Selection(sel.tags.(genre := ""), sel.search), song);
    Widens(songs, sel, Selection(sel.tags.(year := ""), sel.search), song);
    Widens(songs, sel, Selection(sel.tags.(singer := ""), sel.search), song);
    Widens(songs, sel, Selection(sel.tags.(musicBy := ""), sel.search), song);
    Widens(songs, sel, Selection(sel.tags, ""), song);
  }

  lemma ToLowerIdempotent(s: string)
    ensures ToLower(ToLower(s)) == ToLower(s)
  {
  }

  /** Case does not matter in the search box: a text and its lowercase select the same songs. */
  lemma SearchIgnoresCase(raw: string, song: Song)
    ensures SearchMatches(SearchKey(ToLower(raw)), song) == SearchMatches(SearchKey(raw), song)
  {
    ToLowerIdempotent(raw);
  }

  /** A search text of blanks only is no search: every song passes it. */
  lemma BlankSearchMatchesAll(raw: string, song: Song)
    requires forall i :: 0 <= i < |raw| ==> IsSpace(raw[i])
    ensures SearchKey(raw) == ""
    ensures SearchMatches(SearchKey(raw), song)
  {
    assert forall i :: 0 <= i < |ToLower(raw)| ==> IsSpace(ToLower(raw)[i]);
  }

  // ---------------------------------------------------------------- albums

  /** One album card of `renderAlbums`. */
  datatype Album = Album(name: string, cover: string, songs: seq<Song>)

  /** `song.albumImage || song.coverImage`. */
  function CoverOf(song: Song): string {
    if Truthy(song.albumImage) then song.albumImage.value else song.coverImage
  }

  function AlbumNames(songs: seq<Song>): (r: seq<string>)
    ensures |r| == |songs| && forall i :: 0 <= i < |songs| ==> r[i] == GetAlbumName(songs[i])
  {
    seq(|songs|, i requires 0 <= i < |songs| => GetAlbumName(songs[i]))
  }

  function AlbumIs(name: string): Song -> bool {
    song => GetAlbumName(song) == name
  }

  /**
   * A card for one album of `songs`: the name occurs, the card holds the
   * songs with that name in their order, and its cover is the first one's.
   */
  predicate CardOf(songs: seq<Song>, album: Album) {
    var names := AlbumNames(songs);
    && album.name in names
    && album.songs == Filter(songs, AlbumIs(album.name))
    && album.cover == CoverOf(songs[FirstIndex(names, album.name)])
  }

  /** The albums of `songs`: one card per derived album name, in first-seen order. */
  predicate Grouping(songs: seq<Song>, albums: seq<Album>) {
    var names := AlbumNames(songs);
    && |albums| == |FirstSeen(names)|
    && forall k :: 0 <= k < |albums| ==> albums[k].name == FirstSeen(names)[k] && CardOf(songs, albums[k])
  }

  lemma NamesSnoc(p: seq<Song>, s: Song)
    ensures AlbumNames(p + [s]) == AlbumNames(p) + [GetAlbumName(s)]
  {
  }

  /** A card of another album is not affected by one more song. */
  lemma CardKeep(p: seq<Song>, s: Song, album: Album)
    requires CardOf(p, album) && album.name != GetAlbumName(s)
    ensures CardOf(p + [s], album)
  {
    var names := AlbumNames(p);
    NamesSnoc(p, s);
    FilterSnoc(p, s, AlbumIs(album.name));
    FirstIndexSnoc(names, GetAlbumName(s), album.name);
    assert (p + [s])[FirstIndex(names, album.name)] == p[FirstIndex(names, album.name)];
  }

  /** The card of the song's album gets the song appended and keeps its cover. */
  lemma CardJoin(p: seq<Song>, s: Song, album: Album)
    requires CardOf(p, album) && album.name == GetAlbumName(s)
    ensures CardOf(p + [s], album.(songs := album.songs + [s]))
  {
    var names := AlbumNames(p);
    NamesSnoc(p, s);
    FilterSnoc(p, s, AlbumIs(album.name));
    FirstIndexSnoc(names, GetAlbumName(s), album.name);
    assert (p + [s])[FirstIndex(names, album.name)] == p[FirstIndex(names, album.name)];
  }

  /** The first song of an album opens its card, with that song's cover. */
  lemma CardNew(p: seq<Song>, s: Song)
    requires GetAlbumName(s) !in AlbumNames(p)
    ensures CardOf(p + [s], Album(GetAlbumName(s), CoverOf(s), [s]))
  {
    var names, n := AlbumNames(p), GetAlbumName(s);
    NamesSnoc(p, s);
    FilterSnoc(p, s, AlbumIs(n));
    FilterDropsAll(p, AlbumIs(n));
    FirstIndexSnoc(names, n, n);
  }

  /** A song whose album already has a card joins that card. */
  lemma GroupingJoin(p: seq<Song>, s: Song, albums: seq<Album>, j: nat)
    requires Grouping(p, albums) && j < |albums| && albums[j].name == GetAlbumName(s)
    ensures Grouping(p + [s], albums[j := albums[j].(songs := albums[j].songs + [s])])
  {
    var names, n := AlbumNames(p), GetAlbumName(s);
    var next := albums[j := albums[j].(songs := albums[j].songs + [s])];
    NamesSnoc(p, s);
    FirstSeenSpec(names);
    assert CardOf(p, albums[j]);
    FirstSeenSnoc(names, n);
    forall k | 0 <= k < |next|
      ensures next[k].name == FirstSeen(names + [n])[k] && CardOf(p + [s], next[k])
    {
      assert CardOf(p, albums[k]);
      if k == j {
        CardJoin(p, s, albums[k]);
      } else {
        CardKeep(p, s, albums[k]);
      }
    }
  }

  /** A song with a new album name opens a card at the end. */
  lemma GroupingOpen(p: seq<Song>, s: Song, albums: seq<Album>)
    requires Grouping(p, albums) && GetAlbumName(s) !in AlbumNames(p)
    ensures Grouping(p + [s], albums + [Album(GetAlbumName(s), CoverOf(s), [s])])
  {
    var names, n := AlbumNames(p), GetAlbumName(s);
    var next := albums + [Album(n, CoverOf(s), [s])];
    NamesSnoc(p, s);
    FirstSeenSnoc(names, n);
    var seen := FirstSeen(names);
    assert FirstSeen(names + [n]) == seen + [n];
    forall k | 0 <= k < |next|
      ensures next[k].name == (seen + [n])[k] && CardOf(p + [s], next[k])
    {
      if k < |albums| {
        assert next[k] == albums[k] && (seen + [n])[k] == seen[k];
        assert CardOf(p, albums[k]);
        CardKeep(p, s, albums[k]);
      } else {
        CardNew(p, s);
      }
    }
  }

  /**
   * The grouping loop of `renderAlbums`: a dictionary from album name to
   * card, filled in one pass over the visible songs. The dictionary is a
   * map from name to the card's position in `albums`.
   */
  method GroupAlbums(songs: seq<Song>) returns (albums: seq<Album>)
    ensures Grouping(songs, albums)
  {
    albums := [];
    var index: map<string, nat> := map[];
    var i := 0;
    while i < |songs|
      invariant 0 <= i <= |songs|
      invariant Grouping(songs[..i], albums)
      invariant forall n :: n in index <==> n in AlbumNames(songs[..i])
      invariant forall n :: n in index ==> index[n] < |albums| && albums[index[n]].name == n
    {
      var song := songs[i];
      var name := GetAlbumName(song);
      assert songs[..i + 1] == songs[..i] + [song];
      NamesSnoc(songs[..i], song);
      if name in index {
        GroupingJoin(songs[..i], song, albums, index[name]);
        var k := index[name];
        albums := albums[k := albums[k].(songs := albums[k].songs + [song])];
      } else {
        GroupingOpen(songs[..i], song, albums);
        index := index[name := |albums|];
        albums := albums + [Album(name, CoverOf(song), [song])];
      }
      i := i + 1;
    }
    assert songs[..i] == songs;
  }

  /** Every song is on the card of its album and on no other; card names are distinct. */
  lemma GroupingPartitions(songs: seq<Song>, albums: seq<Album>)
    requires Grouping(songs, albums)
    ensures forall k, l :: 0 <= k < l < |albums| ==> albums[k].name != albums[l].name
    ensures forall song, k :: song in songs && 0 <= k < |albums| ==>
      (song in albums[k].songs <==> albums[k].name == GetAlbumName(song))
    ensures forall song :: song in songs ==>
      exists k :: 0 <= k < |albums| && albums[k].name == GetAlbumName(song)
  {
    var names := AlbumNames(songs);
    FirstSeenSpec(names);
    forall song, k | song in songs && 0 <= k < |albums|
      ensures song in albums[k].songs <==> albums[k].name == GetAlbumName(song)
    {
      FilterMember(songs, AlbumIs(albums[k].name), song);
    }
    forall song | song in songs
      ensures exists k :: 0 <= k < |albums| && albums[k].name == GetAlbumName(song)
    {
      var j :| 0 <= j < |songs| && songs[j] == song;
      assert names[j] in names;
      var k :| 0 <= k < |FirstSeen(names)| && FirstSeen(names)[k] == names[j];
      assert albums[k].name == GetAlbumName(song);
    }
  }

  // ------------------------------------------- the dictionary as JavaScript orders it

  /**
   * An array-index property key: the canonical decimal form of an integer
   * below 2^32 - 1 (section 6.1.7 of ECMA-262).
   */
  predicate IsArrayIndex(key: string) {
    && |key| >= 1 && AllDigits(key) && (|key| == 1 || key[0] != '0')
    && DigitsValue(key) < 0xFFFF_FFFF
  }

  function KeyValue(key: string): nat {
    if AllDigits(key) then DigitsValue(key) else 0
  }

  function InsertByValue(key: string, sorted: seq<string>): seq<string> {
    if sorted == [] then [key]
    else if KeyValue(key) <= KeyValue(sorted[0]) then [key] + sorted
    else [sorted[0]] + InsertByValue(key, sorted[1..])
  }

  function SortByValue(keys: seq<string>): seq<string> {
    if keys == [] then [] else InsertByValue(keys[0], SortByValue(keys[1..]))
  }

  /**
   * The order `Object.values` lists own properties in (OrdinaryOwnPropertyKeys,
   * section 10.1.11.1 of ECMA-262): array indices ascending, then the other
   * keys in creation order.
   */
  function OwnKeyOrder(keys: seq<string>): seq<string> {
    SortByValue(Filter(keys, IsArrayIndex)) + Filter(keys, key => !IsArrayIndex(key))
  }

  /** Properties every plain object inherits from `Object.prototype`. */
  const INHERITED_KEYS: set<string> := {
    "constructor", "__proto__", "hasOwnProperty", "isPrototypeOf", "propertyIsEnumerable",
    "toString", "toLocaleString", "valueOf",
    "__defineGetter__", "__defineSetter__", "__lookupGetter__", "__lookupSetter__"}

  /**
   * The album names in the order `renderAlbums` shows its cards, as written:
   * `albums[name]` on an inherited name finds the inherited member, so no
   * card is created and `.songs.push` throws; otherwise the cards follow the
   * key order of the dictionary.
   */
  function AlbumOrderAsWritten(songs: seq<Song>): Result<seq<string>> {
    var names := AlbumNames(songs);
    if exists i :: 0 <= i < |names| && names[i] in INHERITED_KEYS then Thrown("TypeError")
    else Ok(OwnKeyOrder(FirstSeen(names)))
  }

  /** A song with only an explicit album name. */
  function AlbumSong(id: string, album: string): Song {
    Song(id, None, None, Some(album), None, "", "", None, None, None, None, None)
  }

  /** An album named like a number is listed before an album seen earlier. */
  lemma AlbumOrderFinding()
    ensures AlbumOrderAsWritten([AlbumSong("1", "Jersey"), AlbumSong("2", "96")]) == Ok(["96", "Jersey"])
    ensures FirstSeen(AlbumNames([AlbumSong("1", "Jersey"), AlbumSong("2", "96")])) == ["Jersey", "96"]
  {
    var songs := [AlbumSong("1", "Jersey"), AlbumSong("2", "96")];
    var names := AlbumNames(songs);
    assert names == ["Jersey", "96"];
    ExampleSeen();
    ExampleNotInherited();
    ExampleKeyOrder();
  }

  lemma ExampleSeen()
    ensures FirstSeen(["Jersey", "96"]) == ["Jersey", "96"]
  {
    assert ["Jersey", "96"][..1] == ["Jersey"] && ["Jersey"][..0] == [];
  }

  lemma ExampleNotInherited()
    ensures "Jersey" !in INHERITED_KEYS && "96" !in INHERITED_KEYS
  {
    assert forall k :: k in INHERITED_KEYS ==> |k| > 6;
  }

  lemma ExampleKeyOrder()
    ensures OwnKeyOrder(["Jersey", "96"]) == ["96", "Jersey"]
  {
    assert !IsArrayIndex("Jersey") by { assert !IsDigit("Jersey"[0]); }
    assert "96"[..1] == "9" && "9"[..0] == "";
    assert IsArrayIndex("96");
    assert ["Jersey", "96"][1..] == ["96"];
    assert Filter(["Jersey", "96"], IsArrayIndex) == ["96"];
    assert Filter(["Jersey", "96"], key => !IsArrayIndex(key)) == ["Jersey"];
  }

  /** An album named `constructor` makes the grouping throw instead of showing one card. */
  lemma InheritedNameFinding()
    ensures AlbumOrderAsWritten([AlbumSong("1", "constructor")]) == Thrown("TypeError")
    ensures forall albums: seq<Album> :: Grouping([AlbumSong("1", "constructor")], albums) ==>
      |albums| == 1 && albums[0].name == "constructor"
  {
    var songs := [AlbumSong("1", "constructor")];
    assert AlbumNames(songs) == ["constructor"];
    ExampleInherited();
    ExampleSingleCard(songs, "constructor");
  }

  lemma ExampleInherited()
    ensures AlbumOrderAsWritten([AlbumSong("1", "constructor")]) == Thrown("TypeError")
  {
    var names := AlbumNames([AlbumSong("1", "constructor")]);
    assert names[0] == "constructor";
    assert "constructor" in INHERITED_KEYS;
  }

  /** A catalog whose songs all carry one album name makes one card. */
  lemma ExampleSingleCard(songs: seq<Song>, name: string)
    requires AlbumNames(songs) == [name]
    ensures forall albums: seq<Album> :: Grouping(songs, albums) ==> |albums| == 1 && albums[0].name == name
  {
    assert FirstSeen([name]) == [name] by { assert [name][..0] == []; }
  }

  /** Clicking an album card: open that album's detail view. */
  method SelectAlbum(st: AppState, album: Album)
    modifies st`viewMode, st`currentAlbum
    ensures st.viewMode == ALBUM_DETAIL_VIEW && st.currentAlbum == Some(album.name)
  {
    st.viewMode := ALBUM_DETAIL_VIEW;
    st.currentAlbum := Some(album.name);
  }

  /**
   * The songs `renderAlbumDetail` lists: catalog entries whose derived album
   * name equals `currentAlbum`. A `null` album equals no name.
   */
  function AlbumDetail(songs: seq<Song>, current: Option<string>): seq<Song> {
    match current
    case None => []
    case Some(name) => Filter(songs, AlbumIs(name))
  }

  lemma AlbumDetailSpec(songs: seq<Song>, name: string, song: Song)
    ensures song in AlbumDetail(songs, Some(name)) <==> song in songs && GetAlbumName(song) == name
    ensures IsSubsequence(AlbumDetail(songs, Some(name)), songs)
    ensures AlbumDetail(songs, None) == []
  {
    FilterMember(songs, AlbumIs(name), song);
    FilterIsSubsequence(songs, AlbumIs(name));
  }

  /**
   * The detail view lists the whole catalog's songs of the album: the card
   * built from the visible songs holds a subsequence of them.
   */
  lemma AlbumDetailIgnoresFilters(songs: seq<Song>, visible: seq<Song>, albums: seq<Album>, k: nat)
    requires IsSubsequence(visible, songs) && Grouping(visible, albums) && k < |albums|
    ensures IsSubsequence(albums[k].songs, AlbumDetail(songs, Some(albums[k].name)))
    ensures visible == songs ==> albums[k].songs == AlbumDetail(songs, Some(albums[k].name))
  {
    FilterMonotone(visible, songs, AlbumIs(albums[k].name));
  }

  // ---------------------------------------------------------------- toggles

  method HandleViewToggle(st: AppState, mode: string)
    modifies st`viewMode, st`currentAlbum
    ensures st.viewMode == mode && st.currentAlbum == None
  {
    st.viewMode := mode;
    st.currentAlbum := None;
  }

  method HandleDisplayStyleToggle(st: AppState, style: string)
    modifies st`displayStyle
    ensures st.displayStyle == Some(style)
  {
    st.displayStyle := Some(style);
  }

  // ---------------------------------------------------------------- active card

  /**
   * `currentSongIndex !== -1 && songsData[currentSongIndex].id === song.id`;
   * an index with no entry reads a property of `undefined` and throws.
   */
  function IsActive(songs: seq<Song>, cur: int, song: Song): (r: Result<bool>)
    ensures r.Thrown? <==> cur != -1 && !(0 <= cur < |songs|)
    ensures r == Ok(true) ==> 0 <= cur < |songs| && songs[cur].id == song.id
  {
    if cur == -1 then Ok(false)
    else if 0 <= cur < |songs| then Ok(songs[cur].id == song.id)
    else Thrown("TypeError")
  }

  /** With unique ids, the one active catalog card is the current song's. */
  lemma ActiveIsCurrent(songs: seq<Song>, cur: int, j: nat)
    requires UniqueIds(songs) && -1 <= cur < |songs| && j < |songs|
    ensures IsActive(songs, cur, songs[j]) == Ok(j == cur)
  {
  }
}
