/** The pure helpers of js/utils.js: the derived album name and the time label. */
module Utils {
  import opened Base
  import opened Text
  import opened Catalog

  const UNKNOWN_ALBUM := "Unknown Album"

  // ---------------------------------------------------------- album name

  /** The file name of an image reference up to its first `.`: `…/Ala-Vai.jpg` gives `Ala-Vai`. */
  function ImageStem(image: string): string {
    BeforeFirst(AfterLast(image, '/'), '.')
  }

  /** The album name read off an album-cover reference: its stem with hyphens turned into spaces. */
  function ImageAlbumName(image: string): string {
    ReplaceChar(ImageStem(image), '-', ' ')
  }

  /** `getAlbumName`: the explicit album, else the name in the album image, else a sentinel. */
  function GetAlbumName(song: Song): string {
    if Truthy(song.album) then song.album.value
    else if Truthy(song.albumImage) then ImageAlbumName(song.albumImage.value)
    else UNKNOWN_ALBUM
  }

  /** The three sources of the derived album name, in the order `getAlbumName` tries them. */
  lemma AlbumNameCases(song: Song)
    ensures Truthy(song.album) ==> GetAlbumName(song) == song.album.value
    ensures !Truthy(song.album) && Truthy(song.albumImage) ==>
      GetAlbumName(song) == ImageAlbumName(song.albumImage.value)
    ensures !Truthy(song.album) && !Truthy(song.albumImage) ==>
      GetAlbumName(song) == UNKNOWN_ALBUM && GetAlbumName(song) != ""
  {
  }

  /** Everything of an image reference up to and including its last `/`. */
  function ImageDirectory(image: string): string {
    image[..LastIndexOf(image, '/') + 1]
  }

  /** The rest of the file name after the stem: empty, or starting at the first `.`. */
  function ImageExtension(image: string): string {
    var file := AfterLast(image, '/');
    file[IndexOfChar(file, '.')..]
  }

  /**
   * The stem is the piece of the image reference after its last `/` and
   * before the first `.` that follows: the reference is directory, stem and
   * extension, the directory empty or ending in `/`, the extension empty or
   * starting with `.` and free of `/`.
   */
  lemma ImageStemShape(image: string)
    ensures image == ImageDirectory(image) + ImageStem(image) + ImageExtension(image)
    ensures '/' !in ImageStem(image) && '.' !in ImageStem(image)
    ensures ImageDirectory(image) == [] || ImageDirectory(image)[|ImageDirectory(image)| - 1] == '/'
    ensures '/' !in ImageExtension(image)
    ensures ImageExtension(image) == [] || ImageExtension(image)[0] == '.'
  {
    var i := LastIndexOf(image, '/');
    var file := AfterLast(image, '/');
    var k := IndexOfChar(file, '.');
    assert file == image[i + 1..];
    assert ImageDirectory(image) == image[..i + 1];
    assert ImageStem(image) == file[..k] && '/' !in file[..k];
    assert ImageExtension(image) == file[k..];
    Split3(image, i + 1, k);
    ExtensionHasNoSlash(file, k);
    StemHasNoSlash(file, k);
  }

  lemma StemHasNoSlash(file: string, k: nat)
    requires '/' !in file && k <= |file|
    ensures '/' !in file[..k]
  {
    assert forall j :: 0 <= j < k ==> file[..k][j] == file[j];
  }

  lemma Split3(s: string, a: nat, b: nat)
    requires a <= |s| && b <= |s| - a
    ensures s == s[..a] + s[a..][..b] + s[a..][b..]
  {
    var t := s[a..];
    assert t == t[..b] + t[b..];
    assert s == s[..a] + t;
  }

  lemma ExtensionHasNoSlash(file: string, k: nat)
    requires '/' !in file && k <= |file|
    ensures '/' !in file[k..]
  {
    forall j | 0 <= j < |file| - k ensures file[k..][j] != '/' {
      assert file[k..][j] == file[k + j];
    }
  }

  /** A name derived from an image reference has no `/`, no `.` and no `-`; each `-` of the stem became a space. */
  lemma ImageAlbumNameChars(image: string)
    ensures var r := ImageAlbumName(image);
      && |r| == |ImageStem(image)|
      && (forall i :: 0 <= i < |r| ==> r[i] == if ImageStem(image)[i] == '-' then ' ' else ImageStem(image)[i])
      && '/' !in r && '.' !in r && '-' !in r
  {
    var stem := ImageStem(image);
    var r := ImageAlbumName(image);
    assert '/' !in stem && '.' !in stem;
    forall i | 0 <= i < |r| ensures r[i] != '/' && r[i] != '.' && r[i] != '-' {
      assert stem[i] in stem;
    }
  }

  // ---------------------------------------------------------- time label

  /** `formatTime` on a whole number of seconds: minutes, a colon, and two digits of seconds. */
  function FormatTime(seconds: nat): string {
    var min := seconds / 60;
    var sec := seconds % 60;
    NatToString(min) + ":" + (if sec < 10 then "0" else "") + NatToString(sec)
  }

  /** Reads an `m:ss` label back into seconds; the reference inverse of `FormatTime`. */
  function ParseTime(t: string): Option<nat> {
    match FindFirst(t, ":")
    case None => None
    case Some(i) =>
      var m, ss := t[..i], t[i + 1..];
      if |m| >= 1 && AllDigits(m) && |ss| == 2 && AllDigits(ss) && DigitsValue(ss) < 60
      then Some(DigitsValue(m) * 60 + DigitsValue(ss))
      else None
  }

  /** The zero-padded seconds field of a label. */
  function SecondsField(sec: nat): string {
    (if sec < 10 then "0" else "") + NatToString(sec)
  }

  lemma SecondsFieldValue(sec: nat)
    requires sec < 60
    ensures |SecondsField(sec)| == 2 && AllDigits(SecondsField(sec))
    ensures DigitsValue(SecondsField(sec)) == sec
  {
    var ss := SecondsField(sec);
    if sec < 10 {
      assert NatToString(sec) == [DigitChar(sec)];
      assert ss[..1] == "0";
      assert DigitsValue("0") == 0 by { assert "0"[..0] == ""; }
    } else {
      assert NatToString(sec) == NatToString(sec / 10) + [DigitChar(sec % 10)];
      assert |NatToString(sec / 10)| == 1;
      NatToStringRoundTrip(sec);
    }
  }

  /** The seconds field is exactly two digits and names `seconds % 60`, which is below 60. */
  lemma FormatTimeShape(seconds: nat)
    ensures
      var t, i := FormatTime(seconds), |NatToString(seconds / 60)|;
      && |t| == i + 3 && t[..i] == NatToString(seconds / 60) && t[i] == ':'
      && AllDigits(t[i + 1..]) && DigitsValue(t[i + 1..]) == seconds % 60 < 60
  {
    var t, i := FormatTime(seconds), |NatToString(seconds / 60)|;
    SecondsFieldValue(seconds % 60);
    assert t == NatToString(seconds / 60) + ":" + SecondsField(seconds % 60);
    assert t[i + 1..] == SecondsField(seconds % 60);
  }

  lemma {:induction false} FormatTimeRoundTrip(seconds: nat)
    ensures ParseTime(FormatTime(seconds)) == Some(seconds)
  {
    FormatTimeShape(seconds);
    var t, i := FormatTime(seconds), |NatToString(seconds / 60)|;
    var m := NatToString(seconds / 60);
    assert OccursAt(t, ":", i) by { assert t[i..i + 1] == ":"; }
    var f := FindFirst(t, ":");
    assert f.Some?;
    assert f.value == i;
    NatToStringRoundTrip(seconds / 60);
  }

  /** Distinct durations get distinct labels. */
  lemma FormatTimeInjective(a: nat, b: nat)
    requires FormatTime(a) == FormatTime(b)
    ensures a == b
  {
    FormatTimeRoundTrip(a);
    FormatTimeRoundTrip(b);
  }
}
