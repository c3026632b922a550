/** proxima.py: the media player widget of the older entry point. */
module Proxima {
  import opened Wrappers
  import opened Paths
  import opened Ports
  import opened Constants
  import Transport
  import Utils
  import Helpers

  /** Python's `a, b, c, d = xs` on a list: a ValueError unless it has exactly four elements. */
  function Unpack4(xs: seq<string>): (r: Option<(string, string, string, string)>)
    ensures r.Some? <==> |xs| == 4
    ensures r.Some? ==> r.value == (xs[0], xs[1], xs[2], xs[3])
  {
    if |xs| == 4 then Some((xs[0], xs[1], xs[2], xs[3])) else None
  }

  /** `play_song` unpacks four values from utils.py's `get_metadata`, which returns three: it always raises. */
  lemma PlaySongUnpackingFails(tags: Tags)
    ensures Unpack4(Utils.GetMetadata(tags)).None?
  {
  }

  class MediaPlayer {
    var audioTitle: string
    var artistName: string
    var album: string
    var state: State
    var duration: real
    var playingSong: Option<Path>
    /** The calls made on the audio back end, oldest first. */
    ghost var calls: seq<PortCall>

    /** Unless stopped, there is a song to pause or resume. */
    ghost predicate Valid()
      reads this
    {
      state != Stopped ==> playingSong.Some?
    }

    constructor ()
      ensures Valid()
      ensures audioTitle == "No title available" && artistName == "Unknown artist" && album == "No album info"
      ensures state == Stopped && duration == 0.0 && playingSong == None && calls == []
    {
      audioTitle := "No title available";
      artistName := "Unknown artist";
      album := "No album info";
      state := Stopped;
      duration := 0.0;
      playingSong := None;
      calls := [];
    }

    /**
     * `play_song(media)` as written. `None` stands for a false `media` (the
     * default ""). A real media is handed to the back end and recorded as
     * the playing song; then unpacking the metadata raises, so the titles
     * and the state are never updated.
     */
    method PlaySong(media: Option<Path>, tags: Tags) returns (outcome: Outcome)
      requires Valid()
      modifies this
      ensures Valid()
      ensures media.None? ==> outcome == Completed && calls == old(calls) && playingSong == old(playingSong)
      ensures media.Some? ==> outcome == Raised(ValueError) && calls == old(calls) + [Play(media.value)] && playingSong == media
      ensures state == old(state) && audioTitle == old(audioTitle) && artistName == old(artistName)
      ensures album == old(album) && duration == old(duration)
    {
      if media.None? {
        return Completed;
      }
      calls := calls + [Play(media.value)];
      playingSong := media;
      PlaySongUnpackingFails(tags);
      return Raised(ValueError);
    }

    /**
     * `play_song(media)` as evidently intended: the metadata is unpacked
     * from the four-field `get_metadata` of the later version, then the
     * state becomes playing.
     */
    method PlaySongCorrected(media: Option<Path>, tags: Tags)
      requires Valid()
      modifies this
      ensures Valid()
      ensures media.None? ==> state == old(state) && calls == old(calls) && playingSong == old(playingSong)
      ensures media.None? ==> audioTitle == old(audioTitle) && artistName == old(artistName) && album == old(album) && duration == old(duration)
      ensures media.Some? ==> calls == old(calls) + [Play(media.value)] && playingSong == media && state == Playing
      ensures media.Some? ==> Helpers.Metadata(audioTitle, artistName, album, duration) == Helpers.GetMetadata(media.value, tags)
    {
      if media.None? {
        return;
      }
      calls := calls + [Play(media.value)];
      playingSong := media;
      var m := Helpers.GetMetadata(media.value, tags);
      audioTitle, artistName, album, duration := m.title, m.artist, m.album, m.duration;
      state := Playing;
    }

    /** `toggle_play_state`: pause when playing, resume when paused, nothing when stopped. */
    method TogglePlayState()
      requires Valid()
      modifies this`state, this`calls
      ensures Valid()
      ensures state == Transport.Toggle(old(state))
      ensures calls == old(calls) + Transport.ToggleCalls(old(state))
    {
      if state == Playing {
        calls := calls + [Pause];
        state := Paused;
        return;
      }
      if state == Paused {
        calls := calls + [Unpause];
        state := Playing;
        return;
      }
    }

    /**
     * Carry out the call that components.py's explorer makes on this player,
     * with `play_song` as written: playing a song hands it to the back end
     * and then raises, leaving the state and the titles as they were.
     */
    method Perform(cmd: PlayerCommand, tags: Tags) returns (outcome: Outcome)
      requires Valid() && !cmd.PlayFromPlaylist?
      modifies this
      ensures Valid()
      ensures !cmd.PlaySong? ==> outcome == Completed
      ensures cmd.NoCommand? ==> state == old(state) && calls == old(calls) && playingSong == old(playingSong)
      ensures cmd.PlaySong? ==> outcome == Raised(ValueError)
      ensures cmd.PlaySong? ==> state == old(state) && playingSong == Some(cmd.media) && calls == old(calls) + [Play(cmd.media)]
      ensures cmd.TogglePlayState? ==> state == Transport.Toggle(old(state)) && calls == old(calls) + Transport.ToggleCalls(old(state))
      ensures cmd.TogglePlayState? ==> playingSong == old(playingSong)
      ensures audioTitle == old(audioTitle) && artistName == old(artistName) && album == old(album) && duration == old(duration)
    {
      match cmd
      case NoCommand =>
        outcome := Completed;
      case PlaySong(m) =>
        outcome := PlaySong(Some(m), tags);
      case TogglePlayState =>
        TogglePlayState();
        outcome := Completed;
    }

    /**
     * The same dispatch with `play_song` as evidently intended: a played song
     * becomes the playing song and its metadata fills the titles.
     */
    method PerformCorrected(cmd: PlayerCommand, tags: Tags)
      requires Valid() && !cmd.PlayFromPlaylist?
      modifies this
      ensures Valid()
      ensures cmd.NoCommand? ==> state == old(state) && calls == old(calls) && playingSong == old(playingSong)
      ensures cmd.PlaySong? ==> state == Playing && playingSong == Some(cmd.media) && calls == old(calls) + [Play(cmd.media)]
      ensures cmd.PlaySong? ==> Helpers.Metadata(audioTitle, artistName, album, duration) == Helpers.GetMetadata(cmd.media, tags)
      ensures cmd.TogglePlayState? ==> state == Transport.Toggle(old(state)) && calls == old(calls) + Transport.ToggleCalls(old(state))
      ensures cmd.TogglePlayState? ==> playingSong == old(playingSong)
      ensures !cmd.PlaySong? ==>
        audioTitle == old(audioTitle) && artistName == old(artistName) && album == old(album) && duration == old(duration)
    {
      match cmd
      case NoCommand =>
      case PlaySong(m) => PlaySongCorrected(Some(m), tags);
      case TogglePlayState => TogglePlayState();
    }
  }
}
