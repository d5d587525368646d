/**
 * script.js, the earlier single-file revision of the player. Its state is a
 * set of top-level `let` bindings, modelled as one `Globals` object whose
 * methods are the revision's functions. The transitions are specified by the
 * same functions as the module revision's; its filter has no search box.
 */
module Legacy {
  import opened Base
  import opened Seqs
  import opened Catalog
  import opened State
  import opened Player
  import opened Ui
  import opened Api
  import opened Modal

  /** `songsData`, `filters`, `currentSongIndex`, `isPlaying`, `audio` and `visibleSongs`. */
  class Globals {
    var songsData: seq<Song>
    var filters: map<string, seq<string>>
    var currentSongIndex: int
    var isPlaying: bool
    const audio: Media
    var visibleSongs: seq<Song>

    constructor ()
      ensures songsData == [] && filters == map[] && visibleSongs == []
      ensures currentSongIndex == -1 && !isPlaying
      ensures fresh(audio) && audio.src == ""
    {
      songsData := [];
      filters := map[];
      currentSongIndex := -1;
      isPlaying := false;
      audio := new Media();
      visibleSongs := [];
    }

    /** The playback part of the bindings. */
    function Now(): Playback
      reads this, audio
    {
      Playback(currentSongIndex, isPlaying, audio.src)
    }

    /** `fetchData` after both requests answered. */
    method FetchData(filtersOk: bool, metadataOk: bool,
                     vocabulary: map<string, seq<string>>, metadata: Metadata)
      returns (outcome: Outcome)
      modifies this`filters, this`songsData, this`visibleSongs
      ensures !(filtersOk && metadataOk) ==>
        outcome == Threw(NETWORK_ERROR) && unchanged(this)
      ensures filtersOk && metadataOk ==>
        && outcome == Completed
        && filters == vocabulary
        && songsData == NormalizeAll(SongsOf(metadata))
        && visibleSongs == songsData
    {
      if !filtersOk || !metadataOk {
        return Threw(NETWORK_ERROR);
      }
      filters := vocabulary;
      songsData := NormalizeAll(SongsOf(metadata));
      visibleSongs := songsData;
      return Completed;
    }

    /** `applyFilters`: the five select values, no search. */
    method ApplyFilters(tags: Tags) returns (outcome: Outcome)
      modifies this`visibleSongs
      ensures match LegacyVisible(songsData, tags)
        case Ok(v) => visibleSongs == v && outcome == Completed
        case Thrown(e) => visibleSongs == old(visibleSongs) && outcome == Threw(e)
    {
      var visible := LegacyVisible(songsData, tags);
      if visible.Thrown? {
        return Threw(visible.error);
      }
      visibleSongs := visible.value;
      return Completed;
    }

    /** `resetFilters`: clear the five selects and filter again. */
    method ResetFilters() returns (tags: Tags)
      modifies this`visibleSongs
      ensures tags == NO_TAGS && visibleSongs == songsData
    {
      tags := NO_TAGS;
      var outcome := ApplyFilters(tags);
      LegacyIsSearchFree(songsData, tags);
      EmptySelectionKeepsAll(songsData);
    }

    method LoadSong(song: Song)
      modifies audio`src
      ensures audio.src == song.audioUrl
    {
      audio.src := song.audioUrl;
    }

    method PlaySong(resolves: bool)
      modifies this`isPlaying
      ensures isPlaying == (old(isPlaying) || resolves)
    {
      if resolves {
        isPlaying := true;
      }
    }

    method PauseSong()
      modifies this`isPlaying
      ensures !isPlaying
    {
      isPlaying := false;
    }

    method LoadAndPlaySongById(id: string, resolves: bool)
      modifies this`currentSongIndex, this`isPlaying, audio`src
      ensures Now() == LoadById(songsData, visibleSongs, old(Now()), id, resolves)
      decreases 1
    {
      var index := FindById(songsData, id);
      if index == -1 {
        return;
      }
      if currentSongIndex == index {
        TogglePlay(resolves);
        return;
      }
      currentSongIndex := index;
      LoadSong(songsData[index]);
      PlaySong(resolves);
    }

    method TogglePlay(resolves: bool)
      modifies this`currentSongIndex, this`isPlaying, audio`src
      ensures Now() == Toggle(songsData, visibleSongs, old(Now()), resolves)
      decreases if currentSongIndex == -1 && |visibleSongs| > 0 then 2 else 0
    {
      if currentSongIndex == -1 && |visibleSongs| > 0 {
        LoadAndPlaySongById(visibleSongs[0].id, resolves);
        return;
      }
      if isPlaying {
        PauseSong();
      } else {
        PlaySong(resolves);
      }
    }

    method PrevSong(resolves: bool) returns (outcome: Outcome)
      modifies this`currentSongIndex, this`isPlaying, audio`src
      ensures (Now(), outcome) == Prev(songsData, old(Now()), resolves)
    {
      if currentSongIndex > 0 {
        currentSongIndex := currentSongIndex - 1;
      } else {
        currentSongIndex := |songsData| - 1;
      }
      if !(0 <= currentSongIndex < |songsData|) {
        return Threw("TypeError");
      }
      LoadSong(songsData[currentSongIndex]);
      PlaySong(resolves);
      return Completed;
    }

    method NextSong(resolves: bool) returns (outcome: Outcome)
      modifies this`currentSongIndex, this`isPlaying, audio`src
      ensures (Now(), outcome) == Next(songsData, old(Now()), resolves)
    {
      if currentSongIndex < |songsData| - 1 {
        currentSongIndex := currentSongIndex + 1;
      } else {
        currentSongIndex := 0;
      }
      if !(0 <= currentSongIndex < |songsData|) {
        return Threw("TypeError");
      }
      LoadSong(songsData[currentSongIndex]);
      PlaySong(resolves);
      return Completed;
    }

    /**
     * `openVideoModal(url)`: with an accepted ID the modal shows the HD
     * thumbnail and links to the watch URL, and a playing song is toggled.
     */
    method OpenVideoModal(m: VideoModal, url: string, resolves: bool)
      modifies m, this`currentSongIndex, this`isPlaying, audio`src
      ensures ExtractVideoId(url).None? ==> unchanged(m) && Now() == old(Now())
      ensures ExtractVideoId(url).Some? ==>
        var id := ExtractVideoId(url).value;
        && m.active && m.thumbnailSrc == HdThumb(id) && m.videoId == Some(id) && m.link == WatchUrl(id)
        && Now() == if old(isPlaying) then Toggle(songsData, visibleSongs, old(Now()), resolves) else old(Now())
    {
      var videoId := ExtractVideoId(url);
      if videoId.None? {
        return;
      }
      var id := videoId.value;
      m.thumbnailSrc := HdThumb(id);
      m.videoId := Some(id);
      m.link := WatchUrl(id);
      m.active := true;
      if isPlaying {
        TogglePlay(resolves);
      }
    }
  }

  /** The `filter` callback of this revision: the five tag predicates only. */
  function TagsAre(tags: Tags): Song -> bool {
    song => TagsMatch(tags, song)
  }

  /** The new `visibleSongs`, or the exception of `song.year.toString()` on a song without a year. */
  function LegacyVisible(songs: seq<Song>, tags: Tags): Result<seq<Song>> {
    if YearThrows(tags.year, songs) then Thrown("TypeError") else Ok(Filter(songs, TagsAre(tags)))
  }

  /** This filter is the module revision's with an empty search text. */
  lemma LegacyIsSearchFree(songs: seq<Song>, tags: Tags)
    ensures LegacyVisible(songs, tags) == Visible(songs, Selection(tags, ""))
  {
    FilterAgree(songs, TagsAre(tags), Matches(Selection(tags, "")));
  }

  /** It keeps an order-preserving subsequence: exactly the songs matching all five tags. */
  lemma LegacyVisibleSpec(songs: seq<Song>, tags: Tags, song: Song)
    requires LegacyVisible(songs, tags).Ok?
    ensures IsSubsequence(LegacyVisible(songs, tags).value, songs)
    ensures song in LegacyVisible(songs, tags).value <==> song in songs && TagsMatch(tags, song)
  {
    LegacyIsSearchFree(songs, tags);
    VisibleIsSubsequence(songs, Selection(tags, ""));
    VisibleMembers(songs, Selection(tags, ""), song);
  }
}
