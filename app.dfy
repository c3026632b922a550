/** src/app.py: the application of the second entry point, with its theme toggle and its quit action. */
module App {
  import opened Ports

  /** The theme shown in dark and in light mode. */
  function ThemeFor(dark: bool): (theme: string)
    ensures theme == "tokyo-night" <==> dark
  {
    if dark then "tokyo-night" else "catppuccin-latte"
  }

  /** `action_toggle_dark` on the pair (dark, theme): the theme follows the old mode, and the mode flips. */
  function ToggledDark(dark: bool, theme: string): (bool, string) {
    (!dark, if dark then "catppuccin-latte" else "tokyo-night")
  }

  /** Toggling keeps the theme in step with the mode, and two toggles restore both. */
  lemma ToggleDarkTwiceRestores(dark: bool, theme: string)
    requires theme == ThemeFor(dark)
    ensures ToggledDark(dark, theme).1 == ThemeFor(ToggledDark(dark, theme).0)
    ensures ToggledDark(dark, theme).0 == !dark
    ensures var once := ToggledDark(dark, theme); ToggledDark(once.0, once.1) == (dark, theme)
  {
  }

  /** What `action_quit` does, in order. */
  datatype Effect =
    | ClearRunning             // the media player's `running` flag is set to false
    | Port(call: PortCall)     // a call into the audio back end
    | Exit                     // the application exits

  class Rhytmiq {
    var dark: bool
    var theme: string
    /** The media player's `running` flag. */
    var playerRunning: bool
    ghost var effects: seq<Effect>

    /** The theme always matches the mode. */
    ghost predicate Valid()
      reads this
    {
      theme == ThemeFor(dark)
    }

    constructor (playerRunning: bool)
      ensures Valid() && dark && theme == "tokyo-night"
      ensures this.playerRunning == playerRunning && effects == []
    {
      dark := true;
      theme := "tokyo-night";
      this.playerRunning := playerRunning;
      effects := [];
    }

    method ActionToggleDark()
      requires Valid()
      modifies this`dark, this`theme
      ensures Valid()
      ensures (dark, theme) == ToggledDark(old(dark), old(theme))
    {
      if dark {
        theme := "catppuccin-latte";
      } else {
        theme := "tokyo-night";
      }
      dark := !dark;
    }

    /** `action_quit`: clear `running`, then stop playback, close the mixer and exit. */
    method ActionQuit()
      modifies this`playerRunning, this`effects
      ensures !playerRunning
      ensures effects == old(effects) + [ClearRunning, Port(Stop), Port(MixerQuit), Exit]
    {
      playerRunning := false;
      effects := effects + [ClearRunning];
      effects := effects + [Port(Stop)];
      effects := effects + [Port(MixerQuit)];
      effects := effects + [Exit];
    }
  }
}
