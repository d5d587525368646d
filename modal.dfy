/**
 * The video modal of js/modal.js and script.js: the YouTube ID taken from a
 * song's URL by the regular expression
 * `^.*(youtu.be\/|v\/|u\/\w\/|embed\/|watch\?v=|&v=)([^#&?]*).*`,
 * the URLs built from it, the thumbnail fallback and pause-on-open.
 */
module Modal {
  import opened Base
  import opened Text
  import opened Catalog
  import opened State
  import opened Player

  // ------------------------------------------------------------ the ID

  /** What `.` does not match: LF, CR, LINE SEPARATOR, PARAGRAPH SEPARATOR. */
  predicate IsLineTerminator(c: char) {
    c == '\n' || c == '\r' || c == '\U{2028}' || c == '\U{2029}'
  }

  /** `\w`. */
  predicate IsWordChar(c: char) {
    ('a' <= c <= 'z') || ('A' <= c <= 'Z') || ('0' <= c <= '9') || c == '_'
  }

  /** `[^#&?]`. */
  predicate IsIdChar(c: char) {
    c != '#' && c != '&' && c != '?'
  }

  predicate LiteralAt(s: string, at: nat, lit: string) {
    at + |lit| <= |s| && s[at..at + |lit|] == lit
  }

  /**
   * Where group 1 ends when one of its alternatives matches at `at`. The
   * alternatives begin with six different characters, so at most one of
   * them can match at a position.
   */
  function MarkerEnd(s: string, at: nat): (e: Option<nat>)
    ensures e.Some? ==> at < e.value <= |s|
  {
    if LiteralAt(s, at, "youtu") && LiteralAt(s, at + 6, "be/") && !IsLineTerminator(s[at + 5]) then Some(at + 9)
    else if LiteralAt(s, at, "v/") then Some(at + 2)
    else if LiteralAt(s, at, "u/") && at + 4 <= |s| && IsWordChar(s[at + 2]) && s[at + 3] == '/' then Some(at + 4)
    else if LiteralAt(s, at, "embed/") then Some(at + 6)
    else if LiteralAt(s, at, "watch?v=") then Some(at + 8)
    else if LiteralAt(s, at, "&v=") then Some(at + 3)
    else None
  }

  /** A literal cannot match where its first character is absent. */
  lemma NotLiteralAt(s: string, at: nat, lit: string)
    requires at < |s| && lit != [] && s[at] != lit[0]
    ensures !LiteralAt(s, at, lit)
  {
  }

  /** Every alternative ends in `/` or `=`, and only `watch?v=` and `&v=` end in `=`. */
  lemma MarkerEndShape(s: string, at: nat)
    requires MarkerEnd(s, at).Some?
    ensures var e := MarkerEnd(s, at).value;
      && (s[e - 1] == '/' || s[e - 1] == '=')
      && (s[e - 1] == '=' ==> (s[at] == 'w' && e == at + 8) || (s[at] == '&' && e == at + 3))
  {
    var e := MarkerEnd(s, at).value;
    if LiteralAt(s, at, "youtu") && LiteralAt(s, at + 6, "be/") && !IsLineTerminator(s[at + 5]) {
      assert s[at + 8] == s[at + 6..at + 9][2];
    } else if LiteralAt(s, at, "v/") {
      assert s[at + 1] == s[at..at + 2][1];
    } else if LiteralAt(s, at, "u/") && at + 4 <= |s| && IsWordChar(s[at + 2]) && s[at + 3] == '/' {
    } else if LiteralAt(s, at, "embed/") {
      assert s[at + 5] == s[at..at + 6][5];
    } else if LiteralAt(s, at, "watch?v=") {
      assert s[at] == s[at..at + 8][0] && s[at + 7] == s[at..at + 8][7];
    } else {
      assert s[at] == s[at..at + 3][0] && s[at + 2] == s[at..at + 3][2];
    }
  }

  /** Where the first line ends; the greedy `.*` reaches no further. */
  function LineEnd(s: string): (t: nat)
    ensures t <= |s| && (t < |s| ==> IsLineTerminator(s[t]))
    ensures forall j :: 0 <= j < t ==> !IsLineTerminator(s[j])
  {
    if s == [] || IsLineTerminator(s[0]) then 0 else 1 + LineEnd(s[1..])
  }

  /**
   * Backtracking from the greedy `.*`: the largest start `l <= at` where an
   * alternative of group 1 matches, with the end of group 1 there.
   */
  function LastMarker(s: string, at: nat): (r: Option<(nat, nat)>)
    ensures r.Some? ==> r.value.0 <= at && MarkerEnd(s, r.value.0) == Some(r.value.1)
    ensures r.Some? ==> forall j :: r.value.0 < j <= at ==> MarkerEnd(s, j).None?
    ensures r.None? ==> forall j :: 0 <= j <= at ==> MarkerEnd(s, j).None?
  {
    if MarkerEnd(s, at).Some? then Some((at, MarkerEnd(s, at).value))
    else if at == 0 then None
    else LastMarker(s, at - 1)
  }

  /** The greedy `[^#&?]*` from `from`: the end of the longest run of ID characters. */
  function RunEnd(s: string, from: nat): (e: nat)
    requires from <= |s|
    ensures from <= e <= |s|
    ensures forall j :: from <= j < e ==> IsIdChar(s[j])
    ensures e < |s| ==> !IsIdChar(s[e])
    decreases |s| - from
  {
    if from == |s| || !IsIdChar(s[from]) then from else RunEnd(s, from + 1)
  }

  /** `url.match(regExp)[2]`, or `None` when there is no match; a captured group has only ID characters. */
  function Group2(url: string): (r: Option<string>)
    ensures r.Some? ==> forall k :: 0 <= k < |r.value| ==> IsIdChar(r.value[k])
  {
    match LastMarker(url, LineEnd(url))
    case None => None
    case Some((_, e)) =>
      var run := RunEnd(url, e);
      assert forall k :: 0 <= k < run - e ==> url[e..run][k] == url[e + k];
      Some(url[e..run])
  }

  const ID_LENGTH := 11

  /**
   * The accepted video ID: group 2, when its `length` is eleven. That length
   * counts UTF-16 code units, so an accepted ID has at most eleven characters,
   * exactly eleven when none lies outside the Basic Multilingual Plane, and
   * none of them is `#`, `&` or `?`.
   */
  function ExtractVideoId(url: string): (r: Option<string>)
    ensures r.Some? ==> var id := r.value;
      && Utf16Length(id) == ID_LENGTH && |id| <= ID_LENGTH
      && ((forall k :: 0 <= k < |id| ==> id[k] as int <= 0xFFFF) ==> |id| == ID_LENGTH)
      && '#' !in id && '&' !in id && '?' !in id
  {
    match Group2(url)
    case Some(g) => if Utf16Length(g) == ID_LENGTH then Some(g) else None
    case None => None
  }

  /** A URL without any of the six markers on its first line yields no ID. */
  lemma NoMarkerNoId(url: string)
    requires forall j :: 0 <= j <= LineEnd(url) ==> MarkerEnd(url, j).None?
    ensures ExtractVideoId(url) == None
  {
  }

  // ------------------------------------------------------------ URLs

  const WATCH_PREFIX := "https://www.youtube.com/watch?v="
  const THUMB_PREFIX := "https://img.youtube.com/vi/"

  const HD_FILE := "/maxresdefault.jpg"
  const SD_FILE := "/sddefault.jpg"
  const HQ_FILE := "/hqdefault.jpg"

  function WatchUrl(id: string): string { WATCH_PREFIX + id }
  function HdThumb(id: string): string { THUMB_PREFIX + id + HD_FILE }
  function SdThumb(id: string): string { THUMB_PREFIX + id + SD_FILE }
  function HqThumb(id: string): string { THUMB_PREFIX + id + HQ_FILE }

  /** The characters of real YouTube IDs: `\w` and `-`. */
  predicate IsYoutubeId(id: string) {
    |id| == ID_LENGTH && forall k :: 0 <= k < |id| ==> IsWordChar(id[k]) || id[k] == '-'
  }

  lemma LastMarkerIs(s: string, at: nat, l: nat, e: nat)
    requires l <= at && MarkerEnd(s, l) == Some(e)
    requires forall j :: l < j <= at ==> MarkerEnd(s, j).None?
    ensures LastMarker(s, at) == Some((l, e))
    decreases at
  {
    if at > l {
      LastMarkerIs(s, at - 1, l, e);
    }
  }

  /** The characters of a watch URL: the prefix, then the ID. */
  lemma WatchUrlChars(id: string)
    ensures |WatchUrl(id)| == |WATCH_PREFIX| + |id| && |WATCH_PREFIX| == 32
    ensures forall k :: 0 <= k < 32 ==> WatchUrl(id)[k] == WATCH_PREFIX[k]
    ensures forall k :: 32 <= k < |WatchUrl(id)| ==> WatchUrl(id)[k] == id[k - 32]
  {
  }

  /** A watch URL is one line. */
  lemma WatchUrlOneLine(id: string)
    requires IsYoutubeId(id)
    ensures LineEnd(WatchUrl(id)) == |WatchUrl(id)|
  {
    var url := WatchUrl(id);
    WatchUrlChars(id);
    assert '\n' !in WATCH_PREFIX && '\r' !in WATCH_PREFIX;
    assert '\U{2028}' !in WATCH_PREFIX && '\U{2029}' !in WATCH_PREFIX;
    forall k | 0 <= k < |url|
      ensures !IsLineTerminator(url[k])
    {
      if k < 32 {
        assert url[k] in WATCH_PREFIX;
      } else {
        assert url[k] == id[k - 32];
      }
    }
  }

  /** `watch?v=` starts at 24 and no alternative starts later. */
  lemma WatchUrlMarker(id: string)
    requires IsYoutubeId(id)
    ensures MarkerEnd(WatchUrl(id), 24) == Some(32)
    ensures forall j :: 24 < j <= |WatchUrl(id)| ==> MarkerEnd(WatchUrl(id), j).None?
  {
    var url := WatchUrl(id);
    WatchUrlChars(id);
    assert url[24] == 'w';
    NotLiteralAt(url, 24, "youtu");
    NotLiteralAt(url, 24, "v/");
    NotLiteralAt(url, 24, "u/");
    NotLiteralAt(url, 24, "embed/");
    assert url[24..32] == WATCH_PREFIX[24..32] == "watch?v=";
    forall j | 24 < j <= |url|
      ensures MarkerEnd(url, j).None?
    {
      if MarkerEnd(url, j).Some? {
        MarkerEndShape(url, j);
        assert false;
      }
    }
  }

  /** The ID run after `watch?v=` reaches the end of the URL. */
  lemma WatchUrlRun(id: string)
    requires IsYoutubeId(id)
    ensures RunEnd(WatchUrl(id), 32) == |WatchUrl(id)|
  {
    var url := WatchUrl(id);
    WatchUrlChars(id);
    var r := RunEnd(url, 32);
    if r < |url| {
      assert false;
    }
  }

  /** The watch URL the modal links to gives the ID back. */
  lemma WatchUrlRoundTrip(id: string)
    requires IsYoutubeId(id)
    ensures ExtractVideoId(WatchUrl(id)) == Some(id)
  {
    var url := WatchUrl(id);
    WatchUrlOneLine(id);
    WatchUrlMarker(id);
    LastMarkerIs(url, |url|, 24, 32);
    WatchUrlRun(id);
    WatchUrlChars(id);
    assert LastMarker(url, LineEnd(url)) == Some((24, 32));
    assert url[32..|url|] == id;
    assert Group2(url) == Some(id);
    assert forall k :: 0 <= k < |id| ==> id[k] as int <= 0xFFFF;
  }

  /** The three thumbnail URLs differ, in the character after the ID's `/`. */
  lemma ThumbsDistinct(id: string)
    ensures HdThumb(id) != SdThumb(id) && SdThumb(id) != HqThumb(id) && HdThumb(id) != HqThumb(id)
  {
    var k := |THUMB_PREFIX| + |id| + 1;
    assert HdThumb(id)[k] == 'm' && SdThumb(id)[k] == 's' && HqThumb(id)[k] == 'h';
  }

  // ------------------------------------------------------------ fallback

  /**
   * The `onerror` handler with exact comparison (script.js): the source to
   * assign after a failed thumbnail, or `None` when nothing is assigned. It
   * assigns only the SD or the HQ URL, and never the source that failed.
   */
  function ThumbnailFallback(id: string, src: string): (r: Option<string>)
    ensures r.Some? ==> (r.value == SdThumb(id) || r.value == HqThumb(id)) && r.value != src
  {
    ThumbsDistinct(id);
    if src == HdThumb(id) then Some(SdThumb(id))
    else if src == SdThumb(id) then Some(HqThumb(id))
    else None
  }

  /**
   * The `onerror` handler as js/modal.js writes it, testing the source with
   * `includes`: it too assigns only the SD or the HQ URL, and assigns
   * nothing to a source that names neither `maxresdefault` nor `sddefault`.
   */
  function ThumbnailFallbackAsWritten(id: string, src: string): (r: Option<string>)
    ensures r.Some? ==> r.value == SdThumb(id) || r.value == HqThumb(id)
    ensures !Contains(src, "maxresdefault") && !Contains(src, "sddefault") ==> r.None?
  {
    if Contains(src, "maxresdefault") then Some(SdThumb(id))
    else if Contains(src, "sddefault") then Some(HqThumb(id))
    else None
  }

  /** HD falls back to SD, SD to HQ, and a failing HQ thumbnail is left alone. */
  lemma FallbackChain(id: string)
    ensures ThumbnailFallback(id, HdThumb(id)) == Some(SdThumb(id))
    ensures ThumbnailFallback(id, SdThumb(id)) == Some(HqThumb(id))
    ensures ThumbnailFallback(id, HqThumb(id)) == None
  {
    ThumbsDistinct(id);
  }

  /** From any source, at most two reassignments follow before the handler stops. */
  lemma FallbackTerminates(id: string, src: string)
    ensures match ThumbnailFallback(id, src)
      case None => true
      case Some(s1) => match ThumbnailFallback(id, s1)
        case None => true
        case Some(s2) => s2 == HqThumb(id) && ThumbnailFallback(id, s2) == None
  {
    ThumbsDistinct(id);
  }

  /** The HD URL names `maxresdefault` and the SD URL `sddefault`. */
  lemma ThumbNames(id: string)
    ensures Contains(HdThumb(id), "maxresdefault") && Contains(SdThumb(id), "sddefault")
  {
    assert OccursAt(HD_FILE, "maxresdefault", 1) by { assert HD_FILE[1..14] == "maxresdefault"; }
    assert OccursAt(SD_FILE, "sddefault", 1) by { assert SD_FILE[1..10] == "sddefault"; }
    ContainsExtend(THUMB_PREFIX + id, HD_FILE, "", "maxresdefault");
    ContainsExtend(THUMB_PREFIX + id, SD_FILE, "", "sddefault");
    assert THUMB_PREFIX + id + HD_FILE + "" == HdThumb(id);
    assert THUMB_PREFIX + id + SD_FILE + "" == SdThumb(id);
  }

  /**
   * A thumbnail URL for an ID of at most eleven characters, ending in the SD
   * or HQ file, does not contain `maxresdefault`: the `/` before and after
   * the ID leave no window of thirteen characters without a `/` except one
   * inside the prefix, which has no `x`, and the file name itself.
   */
  lemma NoMaxresIn(id: string, file: string)
    requires |id| <= ID_LENGTH
    requires file == SD_FILE || file == HQ_FILE
    ensures !Contains(THUMB_PREFIX + id + file, "maxresdefault")
  {
    var s, p, m := THUMB_PREFIX + id + file, "maxresdefault", |id|;
    assert |s| == 41 + m && |p| == 13;
    assert s[26] == '/' && s[27 + m] == '/' && s[28 + m] == file[1];
    assert 'x' !in THUMB_PREFIX by {
      forall k | 0 <= k < |THUMB_PREFIX| ensures THUMB_PREFIX[k] != 'x' { }
    }
    forall j | 0 <= j && j + 13 <= |s|
      ensures !OccursAt(s, p, j)
    {
      if j + 13 <= 27 {
        assert s[j + 2] == THUMB_PREFIX[j + 2];
        MismatchAt(s, p, j, j + 2);
      } else if j <= 26 {
        MismatchAt(s, p, j, 26);
      } else if j <= 27 + m {
        MismatchAt(s, p, j, 27 + m);
      } else {
        MismatchAt(s, p, j, 28 + m);
      }
    }
  }

  /** `p` does not occur at `j` when one character of the window differs. */
  lemma MismatchAt(s: string, p: string, j: nat, k: nat)
    requires j <= k < j + |p| && k < |s| && s[k] != p[k - j]
    ensures !OccursAt(s, p, j)
  {
  }

  /** For an ID of at most eleven characters only the HD URL names `maxresdefault`. */
  lemma OnlyHdNamesMaxres(id: string)
    requires |id| <= ID_LENGTH
    ensures !Contains(SdThumb(id), "maxresdefault") && !Contains(HqThumb(id), "maxresdefault")
  {
    NoMaxresIn(id, SD_FILE);
    NoMaxresIn(id, HQ_FILE);
  }

  /**
   * For an ID of at most eleven characters whose HQ URL does not name
   * `sddefault`, the two handlers agree on the three thumbnails.
   */
  lemma FallbackAsWrittenAgrees(id: string)
    requires |id| <= ID_LENGTH && !Contains(HqThumb(id), "sddefault")
    ensures ThumbnailFallbackAsWritten(id, HdThumb(id)) == ThumbnailFallback(id, HdThumb(id))
    ensures ThumbnailFallbackAsWritten(id, SdThumb(id)) == ThumbnailFallback(id, SdThumb(id))
    ensures ThumbnailFallbackAsWritten(id, HqThumb(id)) == ThumbnailFallback(id, HqThumb(id))
  {
    FallbackChain(id);
    ThumbNames(id);
    OnlyHdNamesMaxres(id);
  }

  /**
   * An accepted ID that contains `sddefault` makes the written handler assign
   * the HQ URL again after it fails, where the exact handler stops.
   */
  lemma FallbackAsWrittenRetriesHq(id: string)
    requires IsYoutubeId(id) && Contains(id, "sddefault")
    ensures ExtractVideoId(WatchUrl(id)) == Some(id)
    ensures ThumbnailFallbackAsWritten(id, HqThumb(id)) == Some(HqThumb(id))
    ensures ThumbnailFallback(id, HqThumb(id)) == None
  {
    WatchUrlRoundTrip(id);
    FallbackChain(id);
    ContainsExtend(THUMB_PREFIX, id, HQ_FILE, "sddefault");
    OnlyHdNamesMaxres(id);
  }

  /** Such an ID exists: `sddefault00` is eleven word characters. */
  lemma SddefaultIdExample()
    ensures IsYoutubeId("sddefault00") && Contains("sddefault00", "sddefault")
  {
    var id := "sddefault00";
    assert OccursAt(id, "sddefault", 0) by { assert id[0..9] == "sddefault"; }
    forall k | 0 <= k < |id| ensures IsWordChar(id[k]) { }
  }

  // ------------------------------------------------------------ the modal

  /**
   * The modal's observable state: whether it is shown, the thumbnail's
   * source, the ID the current `onerror` handler was built for, and the
   * watch URL that the thumbnail click and the fallback link open.
   */
  class VideoModal {
    var active: bool
    var thumbnailSrc: string
    var videoId: Option<string>
    var link: string

    constructor ()
      ensures !active && thumbnailSrc == "" && videoId == None && link == ""
    {
      active, thumbnailSrc, videoId, link := false, "", None, "";
    }
  }

  /** `openVideoModal(url)`; `resolves` is the play outcome should the toggle start a song. */
  method OpenVideoModal(m: VideoModal, st: AppState, audio: Media, url: string, resolves: bool)
    modifies m, st`currentSongIndex, st`isPlaying, audio`src
    ensures ExtractVideoId(url).None? ==>
      unchanged(m) && Snap(st, audio) == old(Snap(st, audio))
    ensures ExtractVideoId(url).Some? ==>
      var id := ExtractVideoId(url).value;
      && m.active && m.thumbnailSrc == HdThumb(id) && m.videoId == Some(id) && m.link == WatchUrl(id)
      && Snap(st, audio) == if old(st.isPlaying)
        then Toggle(st.songsData, st.visibleSongs, old(Snap(st, audio)), resolves)
        else old(Snap(st, audio))
  {
    var videoId := ExtractVideoId(url);
    if videoId.None? {
      return;
    }
    var id := videoId.value;
    m.thumbnailSrc := HdThumb(id);
    m.videoId := Some(id);
    m.link := WatchUrl(id);
    m.active := true;
    if st.isPlaying {
      TogglePlay(st, audio, resolves);
    }
  }

  /** The thumbnail's `error` event: the handler of the last opened ID steps the source. */
  method OnThumbnailError(m: VideoModal)
    modifies m`thumbnailSrc
    ensures m.videoId.None? ==> m.thumbnailSrc == old(m.thumbnailSrc)
    ensures m.videoId.Some? ==>
      m.thumbnailSrc == match ThumbnailFallback(m.videoId.value, old(m.thumbnailSrc))
        case Some(next) => next
        case None => old(m.thumbnailSrc)
  {
    if m.videoId.Some? {
      var next := ThumbnailFallback(m.videoId.value, m.thumbnailSrc);
      if next.Some? {
        m.thumbnailSrc := next.value;
      }
    }
  }

  method CloseVideoModal(m: VideoModal)
    modifies m`active, m`thumbnailSrc
    ensures !m.active && m.thumbnailSrc == ""
  {
    m.active := false;
    m.thumbnailSrc := "";
  }

  /** The cleared thumbnail's error does not restart the fallback. */
  lemma ClearedThumbnailStaysCleared(id: string)
    ensures ThumbnailFallback(id, "") == None && ThumbnailFallbackAsWritten(id, "") == None
  {
    var h := HdThumb(id);
    assert |h| > 0;
    assert 'm' in "maxresdefault" && 's' in "sddefault";
    MissingCharNotContained("", "maxresdefault", 'm');
    MissingCharNotContained("", "sddefault", 's');
  }
}
