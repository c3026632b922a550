# Rhytmiq in Dafny

This project models the self-contained logic of Rhytmiq, a terminal music
player built on Textual and pygame. The repository contains several
generations of the player, and the model covers the logic in each of them:

- the playlist store (`src/components/playlist.py`);
- the loop-mode player of the command-line prototype (`src/explore.py`);
- three file explorers (`rhytmiq/components/file_explorer.py`, `components.py`, `temp.py`);
- the metadata fallbacks and the media-file test (`rhytmiq/utils/helpers.py`, `utils.py`);
- the constant tables (`src/utils/constants.py`);
- the play/pause state machines (`proxima.py`, `temp.py`, `gui.py`);
- the theme toggle and quit action of the application (`src/app.py`).

The model is organised as follows:

- **Paths** stand in for `pathlib.Path`. A path is its sequence of
  components. `Name`, `Suffix`, `Stem`, `SplitExt`, `Join` and `Parent` follow
  pathlib and `posixpath`. The filesystem is an oracle `FileSystem` that gives
  each path a `Kind` (directory, regular file, other, missing) and each
  directory a `Listing` (its entries, or `Denied` for a permission error).
- **Ports** are the collaborators outside the model:
  - The audio back end is modelled as a ghost trace of `PortCall`s
    (`Play`, `Pause`, `Unpause`, `Stop`, ...).
  - The tags TinyTag would read arrive as a `Tags` value of options.
  - The media player widget, which the explorers and the playlist call, is
    seen through `PlayerView` (`playing_song`, `playing_from_playlist`).
    Each handler returns the `PlayerCommand` it would issue.
- Widgets whose fields change become classes that keep those fields:
  - `Playlist.Playlist` keeps the `songs` dict as its keys in insertion
    order plus a map, along with the list items and the highlighted index.
  - The explorer classes keep `path` and `items`.
  - The `MediaPlayer` classes keep `state` and the metadata fields.
  - `App.Rhytmiq` keeps `dark` and `theme`.

  Their methods state the whole new state. Each is proved against a pure
  function, and the properties are proved as lemmas about that function.
- The chunked populate loop shared by all explorers is
  `LabelItems.ChunkedItems`, a nested `while` loop. It is proved to produce
  one item per child, in order.
- The listing order comes from `Directories.Sort`, a stable insertion sort
  on the key `(is_file(), name.lower())`. It is proved to be a permutation
  that is sorted by that key, and stable: entries with equal keys keep the
  order in which the directory yields them.

## Model

| member | source | states |
|---|---|---|
| Paths.RFind | rhytmiq/utils/helpers.py:22 | the result is -1 or the index of the last occurrence of the character, with none after it |
| Paths.StemAndSuffixSplitName | rhytmiq/utils/helpers.py:14 | the stem (the title fallback) followed by the suffix is the whole file name |
| Paths.ParentUndoesJoin | rhytmiq/components/file_explorer.py:62-68 | joining a plain name appends one component, and going to the parent undoes it |
| Paths.JoinLabel | components.py:121-125 | joining an entry's label, with or without the trailing "/" of a directory label, appends its name as one component, and going to the parent undoes it |
| Paths.Lower | utils.py:22 | lower-casing keeps the length and maps every character through ASCII lower case |
| Ports.TagOr | rhytmiq/utils/helpers.py:14-16 | `tag or fallback` gives the tag when it is set and non-empty, else the fallback |
| Constants.StateOf | src/utils/constants.py:4-7 | `State(v)` exists exactly for 0, 1 and 2, and the member found has value v |
| Constants.StateValuesDistinct | src/utils/constants.py:4-7 | the three states have distinct values, and looking a state up by its value finds it |
| Constants.LoopOf | src/utils/constants.py:10-13 | `Loop(text)` exists exactly for "", "(1)" and "(A)", with that label |
| Constants.LoopLabelsDistinct | src/utils/constants.py:10-13 | the three loop modes have distinct labels, and looking a mode up by its label finds it |
| Constants.IconTableHasExplorerKinds | src/utils/constants.py:16-23 | the icon table has distinct directory, document and audio icons |
| Constants.VideoIsNotAudio | src/utils/constants.py:25-26 | no video extension is an allowed audio extension |
| LabelItems.ChunkedItems | rhytmiq/components/file_explorer.py:36-46 | the ten-at-a-time loop appends exactly one item per child, in listing order |
| Directories.Insert | utils.py:22 | inserting adds exactly the one entry, as a multiset |
| Directories.Sort | rhytmiq/components/file_explorer.py:54 | sorting is a permutation of its input |
| Directories.LexLeTotal | utils.py:22 | Python's string `<=` is total |
| Directories.LexLeTransitive | utils.py:22 | Python's string `<=` is transitive |
| Directories.KeyLeTotal | utils.py:22 | the tuple order on `(is_file(), lowered name)` is total |
| Directories.KeyLeTransitive | utils.py:22 | the tuple order on the key is transitive |
| Directories.InsertSorted | utils.py:22 | inserting into a sorted listing keeps it sorted |
| Directories.WithKey | utils.py:22 | the entries kept are exactly those of the input with the given key |
| Directories.InsertPutsFirstAmongEqual | utils.py:22 | among the entries with one key, the inserted entry comes first and the others keep their order |
| Directories.SortStable | utils.py:22 | sorting keeps the relative order of the entries with equal keys (Python's sort is stable) |
| Directories.SortSorted | utils.py:22 | the sorted listing is ordered by the key |
| Directories.ContentsOrdered | rhytmiq/components/file_explorer.py:53-57 | the listing is a permutation of the entries; non-files come before files; each group is ordered by lower-cased name; a permission error gives [] |
| Directories.ContentsStable | rhytmiq/components/file_explorer.py:53-57 | entries with the same kind and the same lower-cased name are listed in the order the directory yields them |
| Directories.ContentsAreEntries | utils.py:19-25 | every listed path is an entry of the directory |
| Helpers.GetMetadata | rhytmiq/utils/helpers.py:10-18 | four fields in order: the title or the stem, the artist or "Unknown Artist", the album or "Unknown Album", the duration or 0 |
| Helpers.AllowedExtensionsShape | src/utils/constants.py:25 | each allowed extension is a dot followed by at least two non-dot characters |
| Helpers.ValidMediaIffNameEndsWithExtension | rhytmiq/utils/helpers.py:21-22 | a path is valid media exactly when its name is an allowed extension preceded by at least one character |
| Helpers.ValidMediaHasTitle | rhytmiq/utils/helpers.py:13-18 | valid media always get a non-empty title, artist and album |
| Helpers.ValidMediaIsCaseSensitive | rhytmiq/utils/helpers.py:22 | "song.mp3" is valid media and "SONG.MP3" is not |
| Utils.GetMetadata | utils.py:28-35 | exactly three fields: the title or "Unknown", the artist or "Unknown Artist", the album or "Unknown Album" |
| Utils.MetadataKeepsTags | utils.py:31-35 | non-empty tags come back unchanged, and no field is ever empty |
| Transport.ToggleTwiceRestores | proxima.py:68-79 | two toggles restore the state; from stopped a toggle changes nothing and calls nothing; otherwise it switches between playing and paused |
| Transport.NoPressStops | gui.py:68-78 | no sequence of play presses reaches the stopped state, and only a first press made while stopped plays the demo song |
| Transport.VersionsDifferOnlyWhenStopped | temp.py:104-114 | proxima's toggle and temp/gui's play button agree exactly on the states other than stopped |
| Transport.PlayButtonLabel | proxima.py:100-106 | the label is "pause" exactly while playing, "play" otherwise |
| Proxima.Unpack4 | proxima.py:63-65 | four-way unpacking succeeds exactly on a four-element list |
| Proxima.PlaySongUnpackingFails | proxima.py:63 | unpacking utils.py's metadata into four names always fails |
| Proxima.MediaPlayer.constructor | proxima.py:18-26 | initially: "No title available", "Unknown artist", "No album info", stopped, duration 0, no playing song |
| Proxima.MediaPlayer.PlaySong | proxima.py:56-66 | empty media change nothing; otherwise the media is played and recorded, then ValueError is raised and the state and titles stay as they were |
| Proxima.MediaPlayer.PlaySongCorrected | proxima.py:56-66 | empty media change nothing; otherwise the media is played and recorded, the fields take the four-field metadata, and the state becomes playing |
| Proxima.MediaPlayer.TogglePlayState | proxima.py:68-79 | playing pauses, paused resumes, and stopped stays stopped with no call |
| Proxima.MediaPlayer.Perform | components.py:137-141 | with `play_song` as written: the play command plays and records the media, then raises ValueError with the state unchanged; the toggle command toggles; no command changes nothing; the titles and the duration never change |
| Proxima.MediaPlayer.PerformCorrected | components.py:137-141 | with the corrected `play_song`: the play command plays and records the media, the state becomes playing and the titles and duration take its metadata; the toggle command toggles; other commands keep the titles and duration |
| Gui.MediaPlayer.constructor | gui.py:57 | the widget starts stopped |
| Gui.MediaPlayer.ActionPlay | gui.py:68-78 | stopped plays "song.mp3", paused unpauses, and playing pauses; the new state is never stopped |
| Temp.MediaPlayer.constructor | temp.py:93 | the widget starts stopped, with no call made |
| Temp.MediaPlayer.ActionPlay | temp.py:104-114 | stopped plays "song.mp3", paused unpauses, and playing pauses; the new state is never stopped |
| Temp.DestinationRule | temp.py:69-81 | a regular file leaves the path unchanged; otherwise the first item goes to the parent; the path ends at itself, its parent or the selected directory |
| Temp.FileExplorer.constructor | temp.py:41-44 | the explorer keeps its title and starts in the working directory with an empty list |
| Temp.FileExplorer.Selected | temp.py:69-86 | the new path is the one that rule gives; selecting a regular file keeps the list, and anything else leaves it empty, because `recompose` builds a new list view and `compose` never awaits `populate_list` (temp.py:50-54) |
| Temp.FileExplorer.PopulateList | temp.py:56-65 | appends "../" and then one item per listed entry, in order, with the directory or file icon |
| Components.ComposedLabelLeadsToEntry | components.py:86-99 | every composed item after "../" joins back to its entry; its label ends in "/" and carries the directory icon exactly for directories |
| Components.DestinationRule | components.py:121-125 | for an entry's label (a name, or a directory's name followed by "/"), the parent is reached exactly from index 0; otherwise the entry of that name directly below |
| Components.FileCommandRule | components.py:137-141 | a file other than the playing song is played; the playing song is toggled |
| Components.FileExplorer.constructor | components.py:76-99 | the explorer starts in the working directory with the composed list |
| Components.FileExplorer.PopulateList | components.py:103-112 | appends "../" and then one item per listed entry, in order |
| Components.FileExplorer.Selected | components.py:116-141 | a directory is entered or left and the list recomposed; a file of a type not allowed is ignored; an allowed file gives the play-or-toggle command |
| Explorer.IconChoice | rhytmiq/components/file_explorer.py:38-45 | the directory icon exactly for directories; the audio icon exactly for other entries that are valid media; the document icon for the rest |
| Explorer.PopulatedItemLeadsToEntry | rhytmiq/components/file_explorer.py:32-46 | every item after "../" names an entry of the directory and joins back to it |
| Explorer.DestinationRule | rhytmiq/components/file_explorer.py:64-68 | index 0 or "../" goes to the parent; for any other entry's label, with or without a trailing "/", the parent is reached exactly from index 0, otherwise the entry of that name directly below |
| Explorer.MediaCommandRule | rhytmiq/components/file_explorer.py:78-86 | toggle exactly when the selection is the song playing, not from the playlist; otherwise play the selection |
| Explorer.FileExplorer.constructor | rhytmiq/components/file_explorer.py:20-25 | the explorer starts in the working directory with an empty list, which `on_mount` fills |
| Explorer.FileExplorer.Populate | rhytmiq/components/file_explorer.py:30-48 | appends "../" and then one item per listed entry, in order, with its icon |
| Explorer.FileExplorer.HandleSelection | rhytmiq/components/file_explorer.py:59-86 | a directory is entered or left and the list refilled; invalid media are ignored; valid media give the play-or-toggle command |
| Explorer.FileExplorer.AddToPlaylist | rhytmiq/components/file_explorer.py:88-94 | only valid media reach the playlist, which then changes as `add_media` does; no highlight or one past the end raises |
| Playlist.MediaKeyFromTags | src/components/playlist.py:60-61 | the key is the title (or stem), " ~ ", then the artist (or "Unknown Artist") |
| Playlist.DistinctSongsCanShareKey | src/components/playlist.py:61 | two different title/artist pairs can give the same key |
| Playlist.AddedKeepsConsistent | src/components/playlist.py:63-72 | adding keeps the invariant; the key maps to the old media if it was present, else to the new one; every other entry is kept; at most one item is appended |
| Playlist.AddIsIdempotent | src/components/playlist.py:63-64 | adding under a present key changes nothing, whatever the media |
| Playlist.Without | src/components/playlist.py:78 | deleting a key leaves exactly the other keys |
| Playlist.WithoutDistinct | src/components/playlist.py:78 | among distinct keys, deleting the key at position i removes exactly that position |
| Playlist.RemovedKeepsConsistent | src/components/playlist.py:76-79 | removal keeps the invariant; it deletes only the selected key and item; every other entry keeps its value and its order |
| Playlist.AddThenRemoveRestores | src/components/playlist.py:58-79 | removing the entry just added restores the playlist |
| Playlist.IndexAfterRemoval | src/components/playlist.py:81-84 | with items left, the index is the old one if still in range, else 0; with none left, it is unchanged |
| Playlist.Playlist.constructor | src/components/playlist.py:16 | the playlist starts empty with no highlight |
| Playlist.Playlist.HandleSelection | src/components/playlist.py:32-46 | toggle exactly when the entry's media is playing from the playlist; otherwise play that entry from the playlist |
| Playlist.Playlist.Populate | src/components/playlist.py:48-56 | appends one item per key, in insertion order; the invariant then holds on an empty list |
| Playlist.Playlist.AddMedia | src/components/playlist.py:58-72 | the invariant is kept, and the contents become `Added` under the metadata key |
| Playlist.Playlist.RemoveMedia | src/components/playlist.py:74-84 | no highlight raises TypeError and one past the end raises IndexError, both changing nothing; otherwise the contents become `Removed` and the index moves by `IndexAfterRemoval` |
| Explore.LoadSingleSong | src/explore.py:16-28 | the player starts exactly on an existing regular file with an allowed extension, with that file alone; a missing file is reported as not found |
| Explore.LoadedFileIsPlayable | src/explore.py:24-28 | a started player gets one regular file whose name ends in an allowed extension |
| Explore.Advance | src/explore.py:57 | the next index stays below the number of files |
| Explore.AdvanceNClosedForm | src/explore.py:57 | within one round, k ends of track move the index k places on, wrapping once |
| Explore.AllCyclesThroughEveryFile | src/explore.py:56-58 | under ALL, len(files) ends of track bring the index back; on the way every index is visited exactly once |
| Explore.Step | src/explore.py:46-58 | one event keeps the index within the file list |
| Explore.TrackEndRule | src/explore.py:52-58 | at the end of a track: NONE stops with the index unchanged; ONE replays files[index]; ALL plays the next file, wrapping to 0 |
| Explore.QuitAndOtherEvents | src/explore.py:47-51 | a quit event only clears running; any other event changes nothing |
| Explore.StoppedStaysStopped | src/explore.py:45-58 | once running is false, no later event of the batch sets it again |
| Explore.QuitEndsTheRun | src/explore.py:47-48 | a batch holding a quit event ends the run |
| Explore.AllAdvancesOnEachEnd | src/explore.py:56-58 | under ALL, k ends of track move the index as k advances |
| Explore.OneReplaysTheSameFile | src/explore.py:54-55 | under ONE, a batch keeps the index and only replays the current file |
| Explore.PlayerKeepsToTheFirstFile | src/explore.py:39-55 | with the player's ONE mode, every play call is of files[0] |
| Explore.ConfiguredPlayerRepeatsTheFirstFile | src/explore.py:38-55 | with the loop mode `player` sets (ONE), the index stays 0 and every song started on an end of track is files[0] |
| Explore.Player | src/explore.py:35-60 | plays files[0], sets the volume to 0.4 and the end event, handles batches while running, and stops exactly when the run ended |
| App.ThemeFor | src/app.py:25-26 | the theme is "tokyo-night" exactly in dark mode |
| App.ToggleDarkTwiceRestores | src/app.py:41-48 | a toggle flips the mode and keeps the theme matching it; two toggles restore both |
| App.Rhytmiq.constructor | src/app.py:22-26 | the application starts dark with the "tokyo-night" theme |
| App.Rhytmiq.ActionToggleDark | src/app.py:41-48 | from dark, the theme becomes "catppuccin-latte"; otherwise "tokyo-night"; the mode flips; theme and mode stay in step |
| App.Rhytmiq.ActionQuit | src/app.py:34-39 | running is cleared before playback is stopped, the mixer closed and the application exited |

## Left out

- The next/previous/shuffle transport controller and its end-of-track poller are not part of this model. `running` appears only as a flag.
- Terminal-UI plumbing is not modelled: compose trees, CSS, `query_one`, `notify`, `focus`, `clear`, and the watchers other than `watch_state`. An item is its text and its icon.
- pygame audio output and event polling are ports. `Explore.Player` takes the event batches as input. When the input runs out while the player is still running, the model ends there; the program would keep polling.
- TinyTag is a port: tags are inputs. The module-level `TinyTag.get("song.mp3")` and the prints at temp.py:21-23 and gui.py:22-24 are left out.
- Calls into the back ends are assumed to succeed. `pygame.mixer.music.load` (playback.py:8) raises on a missing or unsupported file, and `TinyTag.get` (rhytmiq/utils/helpers.py:12) raises on an unreadable one; either leaves the handler before it changes anything further. So the following promises hold only when those calls succeed:
  - Transport.NoPressStops, Gui.MediaPlayer.ActionPlay and Temp.MediaPlayer.ActionPlay: a press from stopped reaches playing.
  - Proxima.MediaPlayer.PlaySong, Proxima.MediaPlayer.PlaySongCorrected, Proxima.MediaPlayer.Perform and Proxima.MediaPlayer.PerformCorrected: the song is recorded as playing.
  - Playlist.Playlist.AddMedia and Explorer.FileExplorer.AddToPlaylist: the key is always recorded.
  - Explore.Player: the loop goes on after every play call (src/explore.py:63-65 loads without a `try`).
- `lru_cache` is not modelled. The functions are uncached, so a stale cached listing is not captured.
- `str.lower()` is restricted to ASCII. Symlink resolution in `resolve()` is not modelled: `Parent` drops the last component of an absolute, resolved path.
- Errors other than a permission error while listing a directory are left out, along with the `except Exception` notification in the populate methods.
- `input()` in `load_single_song` is a parameter. `Explore.LoadSingleSong` joins the entered name as one component, so absolute names and names containing "/" are not modelled.
- Explore.Player: takes the loop mode as a parameter. `player` itself always runs with ONE (`PLAYER_LOOP`), which `Explore.ConfiguredPlayerRepeatsTheFirstFile` covers; the lemmas about NONE and ALL are about the parameter.
- `recompose` is modelled only by its effect on the list. The widget tree it rebuilds and the focus call are not modelled.
- src/components/playlist.py:10 imports `get_metadata` from its own `utils.helpers`, which is not part of this model. `Playlist.MediaKey` uses the four-field `get_metadata` of rhytmiq/utils/helpers.py, whose title and artist fallbacks the key depends on.
- Argument parsing, `setup.py`, `config.py`, package re-exports, `test.py` and the end-to-end tests are not modelled.
- Python's `None` highlight (`ListView.index`) is `Option<nat>`. A negative index cannot occur.
- utils.py's `State` is represented by `Constants.State`, which has the same members and values. src/explore.py:6 keeps its own `ALLOWED_FILTYPES`, equal to utils.py's.
- The playlist key always has the artist: src/components/playlist.py:61 appends " ~ " and the artist, which is "Unknown Artist" when the tag is missing.
- Toggling from the stopped state does nothing and resumes no track (proxima.py:68-79).
- rhytmiq/utils/helpers.py:6 and rhytmiq/components/file_explorer.py:9 import the package's own `utils.constants`, which is not part of this model; rhytmiq/__init__.py:17-25 also takes `DEFAULT_VOLUME` and `VOLUME_STEP` from it. Both packages are modelled with the tables of src/utils/constants.py, which has no volume constants.
- The filesystem oracle does not force `path/..` to be a directory. The "../" rules of `Explorer.FileExplorer.HandleSelection` and `Components.FileExplorer.Selected` take effect when the oracle reports it as one, as every directory's `..` entry is on a POSIX filesystem.

## Findings

| source | as written | input that shows it | evidently intended | confidence | as-written member | corrected member |
|---|---|---|---|---|---|---|
| proxima.py:63 | `play_song` unpacks four names from `utils.get_metadata`, which returns three fields (utils.py:31-35) | any non-empty media: `media = "a.mp3"` raises ValueError after `play` and after `playing_song` is set, so the titles and the state are never updated | unpack the four-field metadata (title, artist, album, duration) of rhytmiq/utils/helpers.py, then set the state to playing | high, not executed | Proxima.MediaPlayer.PlaySong, Proxima.MediaPlayer.Perform, Proxima.PlaySongUnpackingFails | Proxima.MediaPlayer.PlaySongCorrected, Proxima.MediaPlayer.PerformCorrected |
