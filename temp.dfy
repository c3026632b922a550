/**
 * temp.py: the experimental explorer and media player. Its explorer only
 * navigates: selecting a file notifies and plays nothing.
 */
module Temp {
  import opened Wrappers
  import opened Paths
  import opened Ports
  import opened LabelItems
  import opened Constants
  import Directories
  import Utils
  import Transport

  /**
   * Where `selected` leaves the explorer: in place for a regular file; at the
   * parent from the first item; in the selected directory; in place otherwise.
   */
  function Destination(path: Path, text: string, index: Option<nat>, fs: FileSystem): Path {
    var selected := Join(path, text);
    if fs.kind(selected) == RegularFile then path
    else if index == Some(0) then Parent(path)
    else if fs.kind(selected) == Directory then selected
    else path
  }

  /**
   * A file never moves the explorer. Otherwise it ends at the parent, in place
   * or in the selected directory, which for an entry's label lies directly below
   * the old path.
   */
  lemma DestinationRule(path: Path, text: string, index: Option<nat>, fs: FileSystem)
    ensures fs.kind(Join(path, text)) == RegularFile ==> Destination(path, text, index, fs) == path
    ensures fs.kind(Join(path, text)) != RegularFile && index == Some(0) ==> Destination(path, text, index, fs) == Parent(path)
    ensures var d := Destination(path, text, index, fs);
      d == path || d == Parent(path) || (d == Join(path, text) && fs.kind(d) == Directory)
    ensures NameLabel(text) && fs.kind(Join(path, text)) == Directory && index != Some(0) ==>
      Destination(path, text, index, fs) == Path(path.parts + [LabelName(text)]) &&
      Parent(Destination(path, text, index, fs)) == path
  {
    if NameLabel(text) {
      JoinLabel(path, text);
    }
  }

  class FileExplorer {
    var title: string
    var path: Path
    /** The items of the explorer's list view, top to bottom. */
    var items: seq<LabelItem>

    constructor (title: string, cwd: Path)
      ensures this.title == title && path == cwd && items == []
    {
      this.title := title;
      path := cwd;
      items := [];
    }

    /** `populate_list`: append "../", then the directory's entries ten at a time. */
    method PopulateList(directory: Path, fs: FileSystem)
      modifies this`items
      ensures items == old(items) + Utils.PopulatedItems(fs, directory)
    {
      var children := Directories.Contents(fs, directory);
      var appended := ChunkedItems(children, child => Utils.ListedItem(fs, child));
      Utils.PopulatedItemsFrom(fs, directory, appended);
      items := items + ([LabelItem(UP_LABEL, Utils.ICON["directory"])] + appended);
    }

    /**
     * `selected` for the item labelled `text` at the highlighted `index`.
     * Unless a regular file was selected, `recompose` replaces the list view
     * by a new, empty one: `compose` creates the `populate_list` coroutine
     * without awaiting it, so no item is appended.
     */
    method Selected(text: string, index: Option<nat>, fs: FileSystem)
      modifies this`path, this`items
      ensures path == Destination(old(path), text, index, fs)
      ensures fs.kind(Join(old(path), text)) == RegularFile ==> items == old(items)
      ensures fs.kind(Join(old(path), text)) != RegularFile ==> items == []
    {
      if fs.kind(Join(path, text)) == RegularFile {
        return;
      }
      if index == Some(0) {
        path := Parent(path);
      } else if fs.kind(Join(path, text)) == Directory {
        path := Join(path, text);
      }
      items := [];
    }
  }

  class MediaPlayer {
    var state: State
    /** The calls made on the audio back end, oldest first. */
    ghost var calls: seq<PortCall>

    constructor ()
      ensures state == Stopped && calls == []
    {
      state := Stopped;
      calls := [];
    }

    /** `action_play`: start the demo song when stopped, resume when paused, pause when playing. */
    method ActionPlay()
      modifies this
      ensures state == Transport.PressPlay(old(state)) && state != Stopped
      ensures calls == old(calls) + Transport.PressPlayCalls(old(state))
    {
      if state == Stopped {
        calls := calls + [Play(Transport.DEMO_SONG)];
        state := Playing;
      } else if state == Paused {
        calls := calls + [Unpause];
        state := Playing;
      } else {
        calls := calls + [Pause];
        state := Paused;
      }
    }
  }
}
