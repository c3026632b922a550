/** rhytmiq/utils/helpers.py: the four-field metadata with fallbacks, and the media-file test. */
module Helpers {
  import opened Paths
  import opened Ports
  import Constants

  /** `[title, artist, album, duration]`, in that order. */
  datatype Metadata = Metadata(title: string, artist: string, album: string, duration: real)

  /**
   * `get_metadata(filepath)`, with the tags TinyTag reads from the file given
   * as `tags`: each tag if it is set and not empty (for the duration: not
   * zero), else its fallback.
   */
  function GetMetadata(filepath: Path, tags: Tags): (m: Metadata)
    ensures tags.title.Some? && tags.title.value != "" ==> m.title == tags.title.value
    ensures tags.title.None? || tags.title.value == "" ==> m.title == Stem(filepath)
    ensures tags.artist.Some? && tags.artist.value != "" ==> m.artist == tags.artist.value
    ensures tags.artist.None? || tags.artist.value == "" ==> m.artist == "Unknown Artist"
    ensures tags.album.Some? && tags.album.value != "" ==> m.album == tags.album.value
    ensures tags.album.None? || tags.album.value == "" ==> m.album == "Unknown Album"
    ensures m.duration == if tags.duration.Some? && tags.duration.value != 0.0 then tags.duration.value else 0.0
  {
    Metadata(
      TagOr(tags.title, Stem(filepath)),
      TagOr(tags.artist, "Unknown Artist"),
      TagOr(tags.album, "Unknown Album"),
      if tags.duration.Some? && tags.duration.value != 0.0 then tags.duration.value else 0.0)
  }

  /** `is_valid_media`: the suffix, compared case-sensitively, is an allowed audio extension. */
  predicate IsValidMedia(filepath: Path) {
    Suffix(filepath) in Constants.ALLOWED_AUDIO_EXTENSIONS
  }

  predicate EndsWith(s: string, e: string) {
    |e| <= |s| && s[|s| - |e|..] == e
  }

  /** Each allowed extension is a dot followed by characters none of which is a dot. */
  lemma AllowedExtensionsShape(e: string)
    requires e in Constants.ALLOWED_AUDIO_EXTENSIONS
    ensures |e| >= 3 && e[0] == '.' && forall k :: 0 < k < |e| ==> e[k] != '.'
  {
  }

  /**
   * A path is valid media exactly when its name is an allowed extension
   * preceded by at least one character.
   */
  lemma ValidMediaIffNameEndsWithExtension(filepath: Path)
    ensures IsValidMedia(filepath) <==>
      exists e :: e in Constants.ALLOWED_AUDIO_EXTENSIONS && |e| < |Name(filepath)| && EndsWith(Name(filepath), e)
  {
    var n := Name(filepath);
    var i := RFind(n, '.');
    if IsValidMedia(filepath) {
      var e := Suffix(filepath);
      assert 0 < i < |n| - 1 && e == n[i..];
      assert EndsWith(n, e);
    }
    if e :| e in Constants.ALLOWED_AUDIO_EXTENSIONS && |e| < |n| && EndsWith(n, e) {
      AllowedExtensionsShape(e);
      var d := |n| - |e|;
      assert n[d..] == e;
      assert n[d] == '.';
      forall k | d < k < |n|
        ensures n[k] != '.'
      {
        assert n[k] == e[k - d];
      }
      assert i == d;
      assert Suffix(filepath) == e;
    }
  }

  /** A valid media file always gets a non-empty title: its tag, or its stem. */
  lemma ValidMediaHasTitle(filepath: Path, tags: Tags)
    requires IsValidMedia(filepath)
    ensures GetMetadata(filepath, tags).title != ""
    ensures GetMetadata(filepath, tags).artist != "" && GetMetadata(filepath, tags).album != ""
  {
    var n := Name(filepath);
    var i := RFind(n, '.');
    assert 0 < i;
    assert |Stem(filepath)| == i;
  }

  /** The test is case-sensitive: ".MP3" is not ".mp3". */
  lemma ValidMediaIsCaseSensitive()
    ensures IsValidMedia(Path(["song.mp3"]))
    ensures !IsValidMedia(Path(["SONG.MP3"]))
  {
    RFindLast("song", '.', "mp3");
    assert "song" + ['.'] + "mp3" == "song.mp3";
    RFindLast("SONG", '.', "MP3");
    assert "SONG" + ['.'] + "MP3" == "SONG.MP3";
    assert Suffix(Path(["SONG.MP3"])) == ".MP3";
  }
}
