/** The enumerations and constant tables of src/utils/constants.py. */
module Constants {
  import Wrappers

  /** The transport state; `Value` is the enum member's value. */
  datatype State = Stopped | Playing | Paused {
    function Value(): int {
      match this
      case Stopped => 0
      case Playing => 1
      case Paused => 2
    }
  }

  /** `State(v)`: the member with value `v`, if there is one. */
  function StateOf(v: int): (r: Wrappers.Option<State>)
    ensures r.Some? <==> 0 <= v <= 2
    ensures r.Some? ==> r.value.Value() == v
  {
    if v == 0 then Wrappers.Some(Stopped)
    else if v == 1 then Wrappers.Some(Playing)
    else if v == 2 then Wrappers.Some(Paused)
    else Wrappers.None
  }

  lemma StateValuesDistinct(s: State, t: State)
    ensures s.Value() == t.Value() <==> s == t
    ensures StateOf(s.Value()) == Wrappers.Some(s)
  {
  }

  /** The loop mode (members NONE, ONE, ALL); `Label` is the member's value, the text shown on the loop button. */
  datatype Loop = Off | One | All {
    function Label(): string {
      match this
      case Off => ""
      case One => "(1)"
      case All => "(A)"
    }
  }

  /** `Loop(text)`: the member labelled `text`, if there is one. */
  function LoopOf(text: string): (r: Wrappers.Option<Loop>)
    ensures r.Some? <==> text in ["", "(1)", "(A)"]
    ensures r.Some? ==> r.value.Label() == text
  {
    if text == "" then Wrappers.Some(Off)
    else if text == "(1)" then Wrappers.Some(One)
    else if text == "(A)" then Wrappers.Some(All)
    else Wrappers.None
  }

  lemma LoopLabelsDistinct(l: Loop, m: Loop)
    ensures l.Label() == m.Label() <==> l == m
    ensures LoopOf(l.Label()) == Wrappers.Some(l)
  {
  }

  const ICON: map<string, string> := map[
    "directory" := "\U{1F4C1}",
    "document" := "\U{1F4C4}",
    "audio" := "\U{1F4C0}",
    "video" := "\U{1F3A5}",
    "image" := "\U{1F5BC}\U{FE0F}",
    "package" := "\U{1F4E6}"
  ]

  const ALLOWED_AUDIO_EXTENSIONS: seq<string> := [".mp3", ".wav", ".m4a", ".flac"]

  const VIDEO_EXTENSIONS: seq<string> := [".mp4", ".avi", ".mkv"]

  lemma IconTableHasExplorerKinds()
    ensures "directory" in ICON && "document" in ICON && "audio" in ICON
    ensures ICON["directory"] != ICON["document"] && ICON["directory"] != ICON["audio"] && ICON["document"] != ICON["audio"]
  {
  }

  lemma VideoIsNotAudio(e: string)
    ensures e in VIDEO_EXTENSIONS ==> e !in ALLOWED_AUDIO_EXTENSIONS
  {
  }
}
