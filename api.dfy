/**
 * Ingestion in js/api.js (and the same code in script.js): the two remote
 * documents are taken as inputs, each song's URL fields are rewritten, and
 * the state is assigned only when both responses are ok.
 */
module Api {
  import opened Base
  import opened Text
  import opened Catalog
  import opened State

  const AUDIO_FROM := "/audio/main/"
  const AUDIO_TO := "/audio@main/"
  const COVER_FROM := "/coverimages/main/"
  const COVER_TO := "/coverimages@main/"
  const NETWORK_ERROR := "Network response was not ok"

  /** The metadata document; `songs` may be missing. */
  datatype Metadata = Metadata(songs: Option<seq<Song>>)

  /** `metadata.songs || []`. */
  function SongsOf(metadata: Metadata): seq<Song> {
    match metadata.songs
    case None => []
    case Some(songs) => songs
  }

  /** The audio URL rewrite: the first `/audio/main/`, then the first `/coverimages/main/`. */
  function NormalizeAudio(url: string): string {
    ReplaceFirst(ReplaceFirst(url, AUDIO_FROM, AUDIO_TO), COVER_FROM, COVER_TO)
  }

  function NormalizeCover(url: string): string {
    ReplaceFirst(url, COVER_FROM, COVER_TO)
  }

  /**
   * The per-song `map` callback: a copy in which only the three URL fields
   * change; an album image is still truthy exactly when it was, and a falsy
   * one is kept as it was.
   */
  function NormalizeSong(song: Song): (r: Song)
    ensures r.(audioUrl := song.audioUrl, coverImage := song.coverImage,
               albumImage := song.albumImage) == song
    ensures Truthy(r.albumImage) == Truthy(song.albumImage)
    ensures !Truthy(song.albumImage) ==> r.albumImage == song.albumImage
  {
    var audio := NormalizeAudio(song.audioUrl);
    var cover := NormalizeCover(song.coverImage);
    if Truthy(song.albumImage) then
      ReplaceFirstSpec(song.albumImage.value, COVER_FROM, COVER_TO);
      song.(audioUrl := audio, coverImage := cover,
            albumImage := Some(NormalizeCover(song.albumImage.value)))
    else
      song.(audioUrl := audio, coverImage := cover)
  }

  /**
   * The `map` over the list: same length and order; each position keeps its
   * song's id and every other field but the three URLs, which are that
   * song's normalised URLs.
   */
  function NormalizeAll(songs: seq<Song>): (r: seq<Song>)
    ensures |r| == |songs|
    ensures forall i :: 0 <= i < |songs| ==>
      r[i].(audioUrl := songs[i].audioUrl, coverImage := songs[i].coverImage,
            albumImage := songs[i].albumImage) == songs[i]
    ensures forall i :: 0 <= i < |songs| ==>
      && r[i].audioUrl == NormalizeSong(songs[i]).audioUrl
      && r[i].coverImage == NormalizeSong(songs[i]).coverImage
      && r[i].albumImage == NormalizeSong(songs[i]).albumImage
  {
    seq(|songs|, i requires 0 <= i < |songs| => NormalizeSong(songs[i]))
  }

  /**
   * `fetchData` after both requests answered: `filtersOk` and `metadataOk`
   * are the responses' `ok` flags, `vocabulary` and `metadata` their parsed
   * bodies.
   */
  method FetchData(st: AppState, filtersOk: bool, metadataOk: bool,
                   vocabulary: map<string, seq<string>>, metadata: Metadata)
    returns (outcome: Outcome)
    modifies st`filters, st`songsData, st`visibleSongs
    ensures !(filtersOk && metadataOk) ==>
      outcome == Threw(NETWORK_ERROR) && unchanged(st)
    ensures filtersOk && metadataOk ==>
      && outcome == Completed
      && st.filters == vocabulary
      && st.songsData == NormalizeAll(SongsOf(metadata))
      && st.visibleSongs == st.songsData
  {
    if !filtersOk || !metadataOk {
      return Threw(NETWORK_ERROR);
    }
    st.filters := vocabulary;
    st.songsData := NormalizeAll(SongsOf(metadata));
    st.visibleSongs := st.songsData;
    return Completed;
  }

  // ------------------------------------------------------------ properties

  /** `r` is `u` with some `/` turned into `@` and nothing else changed. */
  predicate SlashesToAts(u: string, r: string) {
    |r| == |u| && forall i :: 0 <= i < |u| ==> r[i] == u[i] || (u[i] == '/' && r[i] == '@')
  }

  lemma SlashesToAtsTransitive(u: string, v: string, w: string)
    requires SlashesToAts(u, v) && SlashesToAts(v, w)
    ensures SlashesToAts(u, w)
  {
  }

  /** Replacing a pattern by one that differs only in `/` becoming `@`. */
  lemma ReplaceFirstSlashToAt(s: string, p: string, q: string)
    requires SlashesToAts(p, q)
    ensures SlashesToAts(s, ReplaceFirst(s, p, q))
  {
    ReplaceFirstSpec(s, p, q);
    if Contains(s, p) {
      var i := FindFirst(s, p).value;
      var r := ReplaceFirst(s, p, q);
      forall j | 0 <= j < |s|
        ensures r[j] == s[j] || (s[j] == '/' && r[j] == '@')
      {
        if j < i {
          assert r[j] == r[..i][j];
        } else if j < i + |p| {
          assert r[j] == r[i..i + |q|][j - i] == q[j - i];
          assert s[j] == s[i..i + |p|][j - i] == p[j - i];
        } else {
          assert r[j] == r[i + |q|..][j - i - |q|];
        }
      }
    }
  }

  /**
   * Normalisation keeps the length of every URL and changes at most the
   * `/` of a first occurrence of a pattern into `@`.
   */
  lemma NormalizeOnlyRewritesSlashes(song: Song)
    ensures SlashesToAts(song.audioUrl, NormalizeSong(song).audioUrl)
    ensures SlashesToAts(song.coverImage, NormalizeSong(song).coverImage)
    ensures Truthy(song.albumImage) ==>
      SlashesToAts(song.albumImage.value, NormalizeSong(song).albumImage.value)
  {
    assert SlashesToAts(AUDIO_FROM, AUDIO_TO);
    assert SlashesToAts(COVER_FROM, COVER_TO);
    var u := song.audioUrl;
    ReplaceFirstSlashToAt(u, AUDIO_FROM, AUDIO_TO);
    ReplaceFirstSlashToAt(ReplaceFirst(u, AUDIO_FROM, AUDIO_TO), COVER_FROM, COVER_TO);
    SlashesToAtsTransitive(u, ReplaceFirst(u, AUDIO_FROM, AUDIO_TO), NormalizeAudio(u));
    ReplaceFirstSlashToAt(song.coverImage, COVER_FROM, COVER_TO);
    if Truthy(song.albumImage) {
      ReplaceFirstSlashToAt(song.albumImage.value, COVER_FROM, COVER_TO);
    }
  }

  /** Over the whole list: every URL keeps its length and changes at most a `/` into `@`. */
  lemma NormalizeAllOnlyRewritesSlashes(songs: seq<Song>)
    ensures forall i :: 0 <= i < |songs| ==>
      && SlashesToAts(songs[i].audioUrl, NormalizeAll(songs)[i].audioUrl)
      && SlashesToAts(songs[i].coverImage, NormalizeAll(songs)[i].coverImage)
      && (Truthy(songs[i].albumImage) ==>
            SlashesToAts(songs[i].albumImage.value, NormalizeAll(songs)[i].albumImage.value))
  {
    forall i | 0 <= i < |songs|
      ensures SlashesToAts(songs[i].audioUrl, NormalizeAll(songs)[i].audioUrl)
      ensures SlashesToAts(songs[i].coverImage, NormalizeAll(songs)[i].coverImage)
      ensures Truthy(songs[i].albumImage) ==>
        SlashesToAts(songs[i].albumImage.value, NormalizeAll(songs)[i].albumImage.value)
    {
      NormalizeOnlyRewritesSlashes(songs[i]);
    }
  }

  /** The first `/audio/main/` becomes `/audio@main/`; the text before it is kept. */
  lemma NormalizeAudioFirstOccurrence(url: string)
    requires Contains(url, AUDIO_FROM)
    ensures var i, r := FindFirst(url, AUDIO_FROM).value, ReplaceFirst(url, AUDIO_FROM, AUDIO_TO);
      && r[..i] == url[..i]
      && r[i..i + |AUDIO_TO|] == AUDIO_TO
      && r[i + |AUDIO_TO|..] == url[i + |AUDIO_FROM|..]
      && forall j :: 0 <= j < i ==> !OccursAt(url, AUDIO_FROM, j)
  {
    ReplaceFirstSpec(url, AUDIO_FROM, AUDIO_TO);
  }

  /** A URL with neither pattern is left as it is. */
  lemma NormalizeWithoutPatterns(url: string)
    requires !Contains(url, AUDIO_FROM) && !Contains(url, COVER_FROM)
    ensures NormalizeAudio(url) == url && NormalizeCover(url) == url
  {
    ReplaceFirstSpec(url, AUDIO_FROM, AUDIO_TO);
    ReplaceFirstSpec(url, COVER_FROM, COVER_TO);
  }

  /** Only a first occurrence changes: a later copy of the pattern survives. */
  lemma OnlyFirstOccurrenceChanges(rest: string)
    ensures NormalizeCover(COVER_FROM + rest) == COVER_TO + rest
    ensures Contains(NormalizeCover(COVER_FROM + COVER_FROM), COVER_FROM)
  {
    ReplaceAtStart(COVER_FROM, COVER_TO, rest);
    ReplaceAtStart(COVER_FROM, COVER_TO, COVER_FROM);
    ContainsInside(COVER_TO, COVER_FROM, []);
    assert COVER_TO + COVER_FROM + [] == COVER_TO + COVER_FROM;
  }

  /** A missing song list gives an empty catalog. */
  lemma MissingSongsEmptyCatalog()
    ensures NormalizeAll(SongsOf(Metadata(None))) == []
  {
  }
}
