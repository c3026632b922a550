/** gui.py: the first media player widget. */
module Gui {
  import opened Ports
  import opened Constants
  import Transport

  class MediaPlayer {
    var state: State
    /** The calls made on the audio back end, oldest first. */
    ghost var calls: seq<PortCall>

    constructor ()
      ensures state == Stopped && calls == []
    {
      state := Stopped;
      calls := [];
    }

    /** `action_play`: start the demo song when stopped, resume when paused, pause when playing. */
    method ActionPlay()
      modifies this
      ensures state == Transport.PressPlay(old(state)) && state != Stopped
      ensures calls == old(calls) + Transport.PressPlayCalls(old(state))
    {
      if state == Stopped {
        calls := calls + [Play(Transport.DEMO_SONG)];
        state := Playing;
      } else if state == Paused {
        calls := calls + [Unpause];
        state := Playing;
      } else {
        calls := calls + [Pause];
        state := Paused;
      }
    }
  }
}
