/**
 * components.py: the file explorer of the second entry point. It builds its
 * list in `compose` (directories shown as "name/") and refills it by
 * recomposing after a directory is selected.
 */
module Components {
  import opened Wrappers
  import opened Paths
  import opened Ports
  import opened LabelItems
  import Directories
  import Utils

  /** The item `compose` makes for one entry: a directory's name gets a trailing "/". */
  function ComposedItem(fs: FileSystem, entry: Path): LabelItem {
    if fs.kind(entry) == Directory then LabelItem(Name(entry) + "/", Utils.ICON["directory"])
    else LabelItem(Name(entry), Utils.ICON["file"])
  }

  /** The list `compose` builds for `directory`: "../", then one item per sorted entry. */
  function Composed(fs: FileSystem, directory: Path): seq<LabelItem> {
    var entries := Directories.Contents(fs, directory);
    [LabelItem(UP_LABEL, Utils.ICON["directory"])] + seq(|entries|, i requires 0 <= i < |entries| => ComposedItem(fs, entries[i]))
  }

  /**
   * Every composed item after "../" stands for an entry of the directory:
   * joining its label back onto the directory gives that entry, and the label
   * ends in "/" and carries the directory icon exactly when the entry is a
   * directory.
   */
  lemma ComposedLabelLeadsToEntry(fs: FileSystem, directory: Path, i: nat)
    requires ListsChildren(fs, directory)
    requires 1 <= i < |Composed(fs, directory)|
    ensures fs.list(directory).Entries?
    ensures Directories.Contents(fs, directory)[i - 1] in fs.list(directory).children
    ensures Join(directory, Composed(fs, directory)[i].text) == Directories.Contents(fs, directory)[i - 1]
    ensures var text := Composed(fs, directory)[i].text;
      text[|text| - 1] == '/' <==> fs.kind(Directories.Contents(fs, directory)[i - 1]) == Directory
    ensures Composed(fs, directory)[i].icon == Utils.ICON["directory"] <==> fs.kind(Directories.Contents(fs, directory)[i - 1]) == Directory
  {
    Directories.ContentsAreEntries(fs, directory, i - 1);
    var e := Directories.Contents(fs, directory)[i - 1];
    ComposedAt(fs, directory, i);
    JoinReachesChild(fs, directory, e);
    EntryLabel(fs, directory, e);
  }

  lemma ComposedAt(fs: FileSystem, directory: Path, i: nat)
    requires 1 <= i < |Composed(fs, directory)|
    ensures i - 1 < |Directories.Contents(fs, directory)|
    ensures Composed(fs, directory)[i] == ComposedItem(fs, Directories.Contents(fs, directory)[i - 1])
  {
  }

  lemma EntryLabel(fs: FileSystem, directory: Path, e: Path)
    requires Name(e) != "" && '/' !in Name(e) && Join(directory, Name(e)) == e
    ensures Join(directory, ComposedItem(fs, e).text) == e
    ensures var text := ComposedItem(fs, e).text;
      text[|text| - 1] == '/' <==> fs.kind(e) == Directory
    ensures ComposedItem(fs, e).icon == Utils.ICON["directory"] <==> fs.kind(e) == Directory
  {
    var n := Name(e);
    var text := ComposedItem(fs, e).text;
    if fs.kind(e) == Directory {
      assert text == n + "/" && text[..|text| - 1] == n;
    } else {
      assert text == n && n[|n| - 1] in n;
    }
  }

  /**
   * The place a selected directory leads to: the parent from the first item,
   * the selected directory otherwise.
   */
  function Destination(path: Path, text: string, index: Option<nat>): Path {
    if index == Some(0) then Parent(path) else Join(path, text)
  }

  /**
   * For a label that is an entry's name, with or without the trailing '/'
   * a directory's label carries, the parent is reached exactly from index 0,
   * and otherwise the entry of that name directly below.
   */
  lemma DestinationRule(path: Path, text: string, index: Option<nat>)
    requires NameLabel(text)
    ensures Destination(path, text, index) == Parent(path) <==> index == Some(0)
    ensures index != Some(0) ==> Destination(path, text, index) == Path(path.parts + [LabelName(text)])
    ensures index != Some(0) ==> Parent(Destination(path, text, index)) == path
  {
    JoinLabel(path, text);
  }

  /** The command for a selected file of an allowed type. */
  function FileCommand(selected: Path, player: PlayerView): PlayerCommand {
    if player.playingSong.None? || player.playingSong.value != selected then PlaySong(selected)
    else TogglePlayState
  }

  /** A file that is not the playing song is played; the playing song is toggled. */
  lemma FileCommandRule(selected: Path, player: PlayerView)
    ensures FileCommand(selected, player) == TogglePlayState <==> player.playingSong == Some(selected)
    ensures FileCommand(selected, player) != TogglePlayState ==> FileCommand(selected, player) == PlaySong(selected)
  {
  }

  class FileExplorer {
    var title: string
    var path: Path
    /** The items of the explorer's list view, top to bottom. */
    var items: seq<LabelItem>

    /** A new explorer, in the working directory `cwd`, with the list `compose` builds. */
    constructor (title: string, cwd: Path, fs: FileSystem)
      ensures this.title == title && path == cwd && items == Composed(fs, cwd)
    {
      this.title := title;
      path := cwd;
      items := Composed(fs, cwd);
    }

    /** `populate_list`: append "../", then the directory's entries ten at a time. */
    method PopulateList(directory: Path, fs: FileSystem)
      modifies this`items
      ensures items == old(items) + Utils.PopulatedItems(fs, directory)
    {
      var children := Directories.Contents(fs, directory);
      var appended := ChunkedItems(children, child => Utils.ListedItem(fs, child));
      Utils.PopulatedItemsFrom(fs, directory, appended);
      items := items + ([LabelItem(UP_LABEL, Utils.ICON["directory"])] + appended);
    }

    /**
     * `selected` for the item labelled `text` at the highlighted `index`. A
     * directory is entered (or left, from the first item) and the list is
     * recomposed; a file of an allowed type is played or toggled.
     */
    method Selected(text: string, index: Option<nat>, fs: FileSystem, player: PlayerView) returns (cmd: PlayerCommand)
      modifies this`path, this`items
      ensures var selected := Join(old(path), text);
        if fs.kind(selected) == Directory then
          path == Destination(old(path), text, index) && items == Composed(fs, path) && cmd == NoCommand
        else
          path == old(path) && items == old(items) &&
          cmd == if Suffix(selected) in Utils.ALLOWED_FILTYPES then FileCommand(selected, player) else NoCommand
    {
      var selected := Join(path, text);
      if fs.kind(selected) == Directory {
        if index == Some(0) {
          path := Parent(path);
        } else if fs.kind(selected) == Directory {
          path := selected;
        }
        items := Composed(fs, path);
        return NoCommand;
      }
      if Suffix(selected) !in Utils.ALLOWED_FILTYPES {
        return NoCommand;
      }
      if player.playingSong.None? || player.playingSong.value != selected {
        return PlaySong(selected);
      }
      return TogglePlayState;
    }
  }
}
