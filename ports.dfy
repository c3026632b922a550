/**
 * The collaborators the modelled code talks to but that are not part of the
 * model: the audio back end (pygame's mixer behind `play`, `pause`, ...), the
 * tag reader (TinyTag), and the media player widget whose `play_song`,
 * `play_from_playlist` and `toggle_play_state` the explorers and the playlist
 * call.
 */
module Ports {
  import opened Wrappers
  import opened Paths

  /** One call into the audio back end. */
  datatype PortCall =
    | Play(file: Path)        // load the file and start playing it
    | Pause
    | Unpause
    | Stop
    | SetVolume(level: real)
    | SetEndEvent             // ask for an event when the track ends
    | MixerQuit

  /** The tags read from a file; `None` for a tag the file does not have. */
  datatype Tags = Tags(title: Option<string>, artist: Option<string>, album: Option<string>, duration: Option<real>)

  /** Python's `tag or fallback` on a string tag: both `None` and "" are false. */
  function TagOr(tag: Option<string>, fallback: string): (r: string)
    ensures tag.Some? && tag.value != "" ==> r == tag.value
    ensures tag.None? || tag.value == "" ==> r == fallback
  {
    if tag.Some? && tag.value != "" then tag.value else fallback
  }

  /** What a selection handler reads of the media player. */
  datatype PlayerView = PlayerView(playingSong: Option<Path>, playingFromPlaylist: bool)

  /** The call a selection handler makes on the media player, if any. */
  datatype PlayerCommand =
    | NoCommand
    | PlaySong(media: Path)
    | PlayFromPlaylist(key: string, media: Path)
    | TogglePlayState
}
