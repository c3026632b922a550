/**
 * The play/pause state machines of the media-player widgets, as pure
 * transitions. proxima.py's `toggle_play_state` ignores a press while
 * stopped; the `action_play` of temp.py and gui.py starts the demo song.
 */
module Transport {
  import opened Paths
  import opened Ports
  import opened Constants

  /** proxima.py `toggle_play_state`: the new state. */
  function Toggle(s: State): State {
    match s
    case Playing => Paused
    case Paused => Playing
    case Stopped => Stopped
  }

  /** proxima.py `toggle_play_state`: the calls it makes on the audio back end. */
  function ToggleCalls(s: State): seq<PortCall> {
    match s
    case Playing => [Pause]
    case Paused => [Unpause]
    case Stopped => []
  }

  lemma ToggleTwiceRestores(s: State)
    ensures Toggle(Toggle(s)) == s
    ensures s == Stopped ==> Toggle(s) == Stopped && ToggleCalls(s) == []
    ensures s != Stopped ==> Toggle(s) != s && Toggle(s) != Stopped
  {
  }

  /**
   * The file `action_play` starts from the stopped state. The program names
   * it "song.mp3", relative to its working directory; the model keeps that
   * bare name as a one-component path and does not resolve it.
   */
  const DEMO_SONG := Path(["song.mp3"])

  /** temp.py and gui.py `action_play`: the new state. */
  function PressPlay(s: State): State {
    match s
    case Stopped => Playing
    case Paused => Playing
    case Playing => Paused
  }

  /** temp.py and gui.py `action_play`: the calls it makes on the audio back end. */
  function PressPlayCalls(s: State): seq<PortCall> {
    match s
    case Stopped => [Play(DEMO_SONG)]
    case Paused => [Unpause]
    case Playing => [Pause]
  }

  /** The state after `k` presses of the play button. */
  function Presses(s: State, k: nat): State
    decreases k
  {
    if k == 0 then s else Presses(PressPlay(s), k - 1)
  }

  /** The calls that `k` presses of the play button make, in order. */
  function PressesCalls(s: State, k: nat): seq<PortCall>
    decreases k
  {
    if k == 0 then [] else PressPlayCalls(s) + PressesCalls(PressPlay(s), k - 1)
  }

  /**
   * No sequence of presses leads back to the stopped state, and the demo
   * song is started at most once: only a press made while stopped plays it.
   */
  lemma {:induction false} NoPressStops(s: State, k: nat)
    ensures k > 0 ==> Presses(s, k) != Stopped
    ensures forall j :: 0 <= j < |PressesCalls(s, k)| && PressesCalls(s, k)[j].Play? ==> j == 0 && s == Stopped
    decreases k
  {
    if k > 0 {
      NoPressStops(PressPlay(s), k - 1);
      var rest := PressesCalls(PressPlay(s), k - 1);
      assert PressesCalls(s, k) == PressPlayCalls(s) + rest;
      forall j | 0 < j < |PressesCalls(s, k)|
        ensures PressesCalls(s, k)[j] == rest[j - 1]
      {
      }
    }
  }

  /** The two versions part ways only when stopped: one ignores the press, the other starts the demo song. */
  lemma VersionsDifferOnlyWhenStopped(s: State)
    ensures Toggle(s) == PressPlay(s) <==> s != Stopped
    ensures ToggleCalls(s) == PressPlayCalls(s) <==> s != Stopped
  {
  }

  /** proxima.py `watch_state`: the play button reads "pause" while playing and "play" otherwise. */
  function PlayButtonLabel(s: State): (text: string)
    ensures text == "pause" <==> s == Playing
    ensures text == "play" <==> s != Playing
  {
    if s == Playing then "pause" else "play"
  }
}
