/**
 * rhytmiq/components/file_explorer.py: the explorer of the packaged player.
 * It shows entry names with an icon by kind and extension, enters and
 * leaves directories, hands valid media to the player and adds the
 * highlighted media to the playlist.
 */
module Explorer {
  import opened Wrappers
  import opened Paths
  import opened Ports
  import opened LabelItems
  import Constants
  import Directories
  import Helpers
  import Playlist

  /** The icon `populate` shows for an entry. */
  function IconFor(fs: FileSystem, entry: Path): string {
    if fs.kind(entry) == Directory then Constants.ICON["directory"]
    else if Suffix(entry) in Constants.ALLOWED_AUDIO_EXTENSIONS then Constants.ICON["audio"]
    else Constants.ICON["document"]
  }

  /** Directories get the directory icon, valid media among the rest the audio icon, and all else the document icon. */
  lemma IconChoice(fs: FileSystem, entry: Path)
    ensures IconFor(fs, entry) == Constants.ICON["directory"] <==> fs.kind(entry) == Directory
    ensures IconFor(fs, entry) == Constants.ICON["audio"] <==> fs.kind(entry) != Directory && Helpers.IsValidMedia(entry)
    ensures IconFor(fs, entry) == Constants.ICON["document"] <==> fs.kind(entry) != Directory && !Helpers.IsValidMedia(entry)
  {
  }

  /** What `populate` appends for `directory`: "../", then each sorted entry's name with its icon. */
  function Populated(fs: FileSystem, directory: Path): seq<LabelItem> {
    ItemsFor(fs, Directories.Contents(fs, directory))
  }

  /** "../", then one item per entry of `entries`. */
  function ItemsFor(fs: FileSystem, entries: seq<Path>): (r: seq<LabelItem>)
    ensures |r| == |entries| + 1
    ensures forall i :: 1 <= i < |r| ==> r[i] == EntryItem(fs, entries[i - 1])
  {
    [LabelItem(UP_LABEL, Constants.ICON["directory"])] + seq(|entries|, i requires 0 <= i < |entries| => EntryItem(fs, entries[i]))
  }

  /** The item `populate` appends for an entry: its name and its icon. */
  function EntryItem(fs: FileSystem, entry: Path): LabelItem {
    LabelItem(Name(entry), IconFor(fs, entry))
  }

  /**
   * Every item after "../" names an entry of the directory, and selecting it
   * (joining its label back onto the directory) reaches that entry.
   */
  lemma PopulatedItemLeadsToEntry(fs: FileSystem, directory: Path, i: nat)
    requires ListsChildren(fs, directory)
    requires 1 <= i < |Populated(fs, directory)|
    ensures fs.list(directory).Entries?
    ensures Directories.Contents(fs, directory)[i - 1] in fs.list(directory).children
    ensures Join(directory, Populated(fs, directory)[i].text) == Directories.Contents(fs, directory)[i - 1]
  {
    Directories.ContentsAreEntries(fs, directory, i - 1);
    var e := Directories.Contents(fs, directory)[i - 1];
    JoinReachesChild(fs, directory, e);
  }

  /** Where a selected directory leads: the parent from the first item or from "../", else the directory itself. */
  function Destination(path: Path, text: string, index: Option<nat>): Path {
    if index == Some(0) || text == UP_LABEL then Parent(path) else Join(path, text)
  }

  /**
   * The "../" item and the first position go to the parent; any other label
   * of an entry, with or without a trailing '/', goes to the parent exactly
   * from the first position, and otherwise to the entry directly below.
   */
  lemma DestinationRule(path: Path, text: string, index: Option<nat>)
    ensures index == Some(0) || text == UP_LABEL ==> Destination(path, text, index) == Parent(path)
    ensures NameLabel(text) && text != UP_LABEL ==> (Destination(path, text, index) == Parent(path) <==> index == Some(0))
    ensures NameLabel(text) && text != UP_LABEL && index != Some(0) ==>
      Destination(path, text, index) == Path(path.parts + [LabelName(text)]) && Parent(Destination(path, text, index)) == path
  {
    if NameLabel(text) {
      JoinLabel(path, text);
    }
  }

  /** The command for selected valid media. */
  function MediaCommand(selected: Path, player: PlayerView): PlayerCommand {
    if player.playingSong.None? || player.playingSong.value != selected || player.playingFromPlaylist then PlaySong(selected)
    else TogglePlayState
  }

  /** Play and pause are toggled only for the song already playing from the explorer; anything else plays the selection. */
  lemma MediaCommandRule(selected: Path, player: PlayerView)
    ensures MediaCommand(selected, player) == TogglePlayState <==> player.playingSong == Some(selected) && !player.playingFromPlaylist
    ensures MediaCommand(selected, player) != TogglePlayState ==> MediaCommand(selected, player) == PlaySong(selected)
  {
  }

  class FileExplorer {
    var path: Path
    /** The items of the list view, top to bottom. */
    var items: seq<LabelItem>

    /** A new explorer in the working directory `cwd`; `on_mount` fills it with `Populate`. */
    constructor (cwd: Path)
      ensures path == cwd && items == []
    {
      path := cwd;
      items := [];
    }

    /** `populate`: append "../", then the directory's entries ten at a time. */
    method Populate(directory: Path, fs: FileSystem)
      modifies this`items
      ensures items == old(items) + Populated(fs, directory)
    {
      var children := Directories.Contents(fs, directory);
      var appended := ChunkedItems(children, child => EntryItem(fs, child));
      assert [LabelItem(UP_LABEL, Constants.ICON["directory"])] + appended == ItemsFor(fs, children);
      items := items + ([LabelItem(UP_LABEL, Constants.ICON["directory"])] + appended);
    }

    /**
     * `handle_selection` for the item labelled `text` at the highlighted
     * `index`. A directory is entered or left and the list refilled; valid
     * media are played or toggled; anything else is ignored.
     */
    method HandleSelection(text: string, index: Option<nat>, fs: FileSystem, player: PlayerView) returns (cmd: PlayerCommand)
      modifies this`path, this`items
      ensures var selected := Join(old(path), text);
        if fs.kind(selected) == Directory then
          path == Destination(old(path), text, index) && items == Populated(fs, path) && cmd == NoCommand
        else
          path == old(path) && items == old(items) &&
          cmd == if Helpers.IsValidMedia(selected) then MediaCommand(selected, player) else NoCommand
    {
      var selected := Join(path, text);
      if fs.kind(selected) == Directory {
        if index == Some(0) || text == UP_LABEL {
          path := Parent(path);
        } else if fs.kind(selected) == Directory {
          path := selected;
        }
        items := [];
        Populate(path, fs);
        return NoCommand;
      }
      if !Helpers.IsValidMedia(selected) {
        return NoCommand;
      }
      if player.playingSong.None? || player.playingSong.value != selected || player.playingFromPlaylist {
        return PlaySong(selected);
      }
      return TogglePlayState;
    }

    /**
     * `action_add_to_playlist` with the highlighted `index` and the tags of
     * the highlighted file: valid media are added to the playlist, anything
     * else is ignored. Without a highlight, or past the end, indexing the
     * items raises.
     */
    method AddToPlaylist(index: Option<nat>, playlist: Playlist.Playlist, tags: Tags) returns (outcome: Outcome)
      requires playlist.Valid()
      modifies playlist`keys, playlist`songs, playlist`items
      ensures playlist.Valid()
      ensures index.None? ==> outcome == Raised(TypeError) && playlist.View() == old(playlist.View())
      ensures index.Some? && index.value >= |items| ==> outcome == Raised(IndexError) && playlist.View() == old(playlist.View())
      ensures index.Some? && index.value < |items| ==>
        var media := Join(path, items[index.value].text);
        && outcome == Completed
        && playlist.View() == if Helpers.IsValidMedia(media) then Playlist.Added(old(playlist.View()), Playlist.MediaKey(media, tags), media)
                              else old(playlist.View())
    {
      if index.None? {
        return Raised(TypeError);
      }
      if index.value >= |items| {
        return Raised(IndexError);
      }
      var media := Join(path, items[index.value].text);
      if !Helpers.IsValidMedia(media) {
        return Completed;
      }
      playlist.AddMedia(media, tags);
      return Completed;
    }
  }
}
