/**
 * The playback controller of js/player.js (and the identical functions of
 * script.js). The state transitions are specified as functions on a
 * `Playback` snapshot, and the methods on `AppState` and `Media` are proved
 * to perform exactly those transitions.
 *
 * `audio.play()` returns a promise; `resolves` says whether it is fulfilled.
 * Its continuation is taken to run before the next user action.
 */
module Player {
  import opened Base
  import opened Catalog
  import opened State

  /** The part of the state the controller writes: the index, the flag and the audio source. */
  datatype Playback = Playback(index: int, playing: bool, source: string)

  function Snap(st: AppState, audio: Media): Playback
    reads st, audio
  {
    Playback(st.currentSongIndex, st.isPlaying, audio.src)
  }

  // ------------------------------------------------------------ specification

  /** `loadSong`: of its effects only `audio.src` is state, the rest is display. */
  function Load(p: Playback, song: Song): Playback {
    p.(source := song.audioUrl)
  }

  /** `playSong`: the flag becomes true only when the play promise is fulfilled. */
  function Play(p: Playback, resolves: bool): Playback {
    p.(playing := p.playing || resolves)
  }

  /** `pauseSong`. */
  function Pause(p: Playback): Playback {
    p.(playing := false)
  }

  /** Selecting catalog entry `i`: set the index, load the song, play it. */
  function Start(songs: seq<Song>, p: Playback, i: nat, resolves: bool): Playback
    requires i < |songs|
  {
    Play(Load(p.(index := i), songs[i]), resolves)
  }

  /** `loadAndPlaySongById`. */
  function LoadById(songs: seq<Song>, visible: seq<Song>, p: Playback, id: string, resolves: bool): Playback
    decreases 1
  {
    var i := FindById(songs, id);
    if i == -1 then p
    else if p.index == i then Toggle(songs, visible, p, resolves)
    else Start(songs, p, i, resolves)
  }

  /** `togglePlay`. */
  function Toggle(songs: seq<Song>, visible: seq<Song>, p: Playback, resolves: bool): Playback
    decreases if p.index == -1 && |visible| > 0 then 2 else 0
  {
    if p.index == -1 && |visible| > 0 then LoadById(songs, visible, p, visible[0].id, resolves)
    else if p.playing then Pause(p)
    else Play(p, resolves)
  }

  /** The index `nextSong` moves to: one on, or back to the first entry. */
  function NextIndex(cur: int, n: nat): int {
    if cur < n - 1 then cur + 1 else 0
  }

  /** The index `prevSong` moves to: one back, or round to the last entry. */
  function PrevIndex(cur: int, n: nat): int {
    if cur > 0 then cur - 1 else n - 1
  }

  /**
   * Moving to index `i` and loading that entry. When there is no entry `i`
   * (an empty catalog) `loadSong` reads a property of `undefined` and
   * throws, after the index was written and before anything else happens.
   */
  function MoveTo(songs: seq<Song>, p: Playback, i: int, resolves: bool): (r: (Playback, Outcome))
    ensures r.0.index == i
    ensures r.1 == Completed <==> 0 <= i < |songs|
    ensures 0 <= i < |songs| ==> r.0.source == songs[i].audioUrl && r.0.playing == (p.playing || resolves)
    ensures !(0 <= i < |songs|) ==>
      r.1 == Threw("TypeError") && r.0.source == p.source && r.0.playing == p.playing
  {
    if 0 <= i < |songs| then (Start(songs, p, i, resolves), Completed)
    else (p.(index := i), Threw("TypeError"))
  }

  function Next(songs: seq<Song>, p: Playback, resolves: bool): (Playback, Outcome) {
    MoveTo(songs, p, NextIndex(p.index, |songs|), resolves)
  }

  function Prev(songs: seq<Song>, p: Playback, resolves: bool): (Playback, Outcome) {
    MoveTo(songs, p, PrevIndex(p.index, |songs|), resolves)
  }

  // ------------------------------------------------------------ the methods

  method LoadSong(audio: Media, song: Song)
    modifies audio`src
    ensures audio.src == song.audioUrl
  {
    audio.src := song.audioUrl;
  }

  method PlaySong(st: AppState, resolves: bool)
    modifies st`isPlaying
    ensures st.isPlaying == (old(st.isPlaying) || resolves)
  {
    if resolves {
      st.isPlaying := true;
    }
  }

  method PauseSong(st: AppState)
    modifies st`isPlaying
    ensures !st.isPlaying
  {
    st.isPlaying := false;
  }

  method LoadAndPlaySongById(st: AppState, audio: Media, id: string, resolves: bool)
    modifies st`currentSongIndex, st`isPlaying, audio`src
    ensures Snap(st, audio) == LoadById(st.songsData, st.visibleSongs, old(Snap(st, audio)), id, resolves)
    decreases 1
  {
    var index := FindById(st.songsData, id);
    if index == -1 {
      return;
    }
    if st.currentSongIndex == index {
      TogglePlay(st, audio, resolves);
      return;
    }
    st.currentSongIndex := index;
    LoadSong(audio, st.songsData[index]);
    PlaySong(st, resolves);
  }

  method TogglePlay(st: AppState, audio: Media, resolves: bool)
    modifies st`currentSongIndex, st`isPlaying, audio`src
    ensures Snap(st, audio) == Toggle(st.songsData, st.visibleSongs, old(Snap(st, audio)), resolves)
    decreases if st.currentSongIndex == -1 && |st.visibleSongs| > 0 then 2 else 0
  {
    if st.currentSongIndex == -1 && |st.visibleSongs| > 0 {
      LoadAndPlaySongById(st, audio, st.visibleSongs[0].id, resolves);
      return;
    }
    if st.isPlaying {
      PauseSong(st);
    } else {
      PlaySong(st, resolves);
    }
  }

  method PrevSong(st: AppState, audio: Media, resolves: bool) returns (outcome: Outcome)
    modifies st`currentSongIndex, st`isPlaying, audio`src
    ensures (Snap(st, audio), outcome) == Prev(st.songsData, old(Snap(st, audio)), resolves)
  {
    if st.currentSongIndex > 0 {
      st.currentSongIndex := st.currentSongIndex - 1;
    } else {
      st.currentSongIndex := |st.songsData| - 1;
    }
    if !(0 <= st.currentSongIndex < |st.songsData|) {
      return Threw("TypeError");
    }
    LoadSong(audio, st.songsData[st.currentSongIndex]);
    PlaySong(st, resolves);
    return Completed;
  }

  method NextSong(st: AppState, audio: Media, resolves: bool) returns (outcome: Outcome)
    modifies st`currentSongIndex, st`isPlaying, audio`src
    ensures (Snap(st, audio), outcome) == Next(st.songsData, old(Snap(st, audio)), resolves)
  {
    if st.currentSongIndex < |st.songsData| - 1 {
      st.currentSongIndex := st.currentSongIndex + 1;
    } else {
      st.currentSongIndex := 0;
    }
    if !(0 <= st.currentSongIndex < |st.songsData|) {
      return Threw("TypeError");
    }
    LoadSong(audio, st.songsData[st.currentSongIndex]);
    PlaySong(st, resolves);
    return Completed;
  }

  // ------------------------------------------------------------ properties

  /** An id the catalog does not hold changes nothing. */
  lemma UnknownIdChangesNothing(songs: seq<Song>, visible: seq<Song>, p: Playback, id: string, resolves: bool)
    requires forall j :: 0 <= j < |songs| ==> songs[j].id != id
    ensures LoadById(songs, visible, p, id, resolves) == p
  {
  }

  /** The id of the current song toggles, and keeps the index. */
  lemma CurrentIdToggles(songs: seq<Song>, visible: seq<Song>, p: Playback, id: string, resolves: bool)
    requires 0 <= p.index < |songs| && songs[p.index].id == id
    requires forall j :: 0 <= j < p.index ==> songs[j].id != id
    ensures LoadById(songs, visible, p, id, resolves) == Toggle(songs, visible, p, resolves)
    ensures LoadById(songs, visible, p, id, resolves).index == p.index
  {
  }

  /**
   * Another id selects the first entry with that id at once, loads its audio,
   * and plays; a rejected play leaves the flag as it was.
   */
  lemma NewIdSelects(songs: seq<Song>, visible: seq<Song>, p: Playback, id: string, resolves: bool, i: nat)
    requires i < |songs| && songs[i].id == id && forall j :: 0 <= j < i ==> songs[j].id != id
    requires p.index != i
    ensures LoadById(songs, visible, p, id, resolves)
      == Playback(i, p.playing || resolves, songs[i].audioUrl)
  {
  }

  /** With nothing loaded, toggling selects the first visible song. */
  lemma ToggleStartsFirstVisible(songs: seq<Song>, visible: seq<Song>, p: Playback, resolves: bool)
    requires p.index == -1 && |visible| > 0
    ensures Toggle(songs, visible, p, resolves) == LoadById(songs, visible, p, visible[0].id, resolves)
    ensures FindById(songs, visible[0].id) != -1 ==>
      var q := Toggle(songs, visible, p, resolves);
      && q.index == FindById(songs, visible[0].id)
      && songs[q.index].id == visible[0].id
      && q.source == songs[q.index].audioUrl
      && q.playing == (p.playing || resolves)
  {
  }

  /** Otherwise toggling pauses a playing song and plays a paused one, when the play succeeds. */
  lemma TogglePausesOrPlays(songs: seq<Song>, visible: seq<Song>, p: Playback, resolves: bool)
    requires p.index != -1 || visible == []
    ensures var q := Toggle(songs, visible, p, resolves);
      && q.index == p.index && q.source == p.source
      && (p.playing ==> !q.playing)
      && (!p.playing ==> q.playing == resolves)
  {
  }

  /** Next and previous stay in range on a non-empty catalog, from any valid index including -1. */
  lemma NavigationInRange(songs: seq<Song>, p: Playback, resolves: bool)
    requires |songs| > 0 && -1 <= p.index < |songs|
    ensures 0 <= Next(songs, p, resolves).0.index < |songs| && Next(songs, p, resolves).1 == Completed
    ensures 0 <= Prev(songs, p, resolves).0.index < |songs| && Prev(songs, p, resolves).1 == Completed
    ensures Next(songs, p, resolves).0.source == songs[Next(songs, p, resolves).0.index].audioUrl
    ensures Prev(songs, p, resolves).0.source == songs[Prev(songs, p, resolves).0.index].audioUrl
  {
  }

  /** The catalog is a ring: from the last entry next gives the first, from the first previous gives the last. */
  lemma WrapAround(songs: seq<Song>, p: Playback, resolves: bool)
    requires |songs| > 0
    ensures p.index == |songs| - 1 ==> Next(songs, p, resolves).0.index == 0
    ensures p.index == 0 ==> Prev(songs, p, resolves).0.index == |songs| - 1
    ensures p.index == -1 ==> Next(songs, p, resolves).0.index == 0
    ensures p.index == -1 ==> Prev(songs, p, resolves).0.index == |songs| - 1
  {
  }

  /** Previous then next, or next then previous, returns to the same index. */
  lemma NavigationRoundTrip(songs: seq<Song>, p: Playback, r1: bool, r2: bool)
    requires 0 <= p.index < |songs|
    ensures Next(songs, Prev(songs, p, r1).0, r2).0.index == p.index
    ensures Prev(songs, Next(songs, p, r1).0, r2).0.index == p.index
  {
  }

  /** On an empty catalog navigation throws, leaving the index at 0 (next) or -1 (previous). */
  lemma NavigationOnEmptyCatalog(p: Playback, resolves: bool)
    requires -1 <= p.index <= 0
    ensures Next([], p, resolves) == (p.(index := 0), Threw("TypeError"))
    ensures Prev([], p, resolves) == (p.(index := -1), Threw("TypeError"))
  {
  }

  /**
   * A snapshot the controller can reach on catalog `songs`: the index is -1
   * or names an entry, and while it is -1 nothing was loaded or played.
   */
  predicate Coherent(songs: seq<Song>, p: Playback) {
    -1 <= p.index < |songs| && (p.index == -1 ==> !p.playing && p.source == "")
  }

  lemma InitialCoherent(songs: seq<Song>)
    ensures Coherent(songs, Playback(-1, false, ""))
  {
  }

  /**
   * Coherence is kept by every transition on a non-empty catalog, given that
   * a play with no source loaded does not succeed.
   */
  lemma TransitionsKeepCoherent(songs: seq<Song>, visible: seq<Song>, p: Playback, id: string, resolves: bool)
    requires Coherent(songs, p) && (p.source == "" ==> !resolves)
    ensures Coherent(songs, LoadById(songs, visible, p, id, resolves))
    ensures Coherent(songs, Toggle(songs, visible, p, resolves))
    ensures |songs| > 0 ==> Coherent(songs, Next(songs, p, resolves).0)
    ensures |songs| > 0 ==> Coherent(songs, Prev(songs, p, resolves).0)
  {
  }

  /** In a coherent snapshot a playing song is paused by a toggle, with nothing else changed. */
  lemma ToggleWhilePlayingPauses(songs: seq<Song>, visible: seq<Song>, p: Playback, resolves: bool)
    requires Coherent(songs, p) && p.playing
    ensures Toggle(songs, visible, p, resolves) == p.(playing := false)
  {
  }
}
