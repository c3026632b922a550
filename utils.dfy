/**
 * utils.py: the constants and the three-field metadata of the older entry
 * point. utils.py's `State` enum has the same members and values as
 * `Constants.State`, which stands for both; its `get_directory_contents` is
 * `Directories.Contents`.
 */
module Utils {
  import opened Paths
  import opened Ports
  import opened LabelItems
  import Directories

  const ICON: map<string, string> := map["directory" := "\U{1F4C1}", "file" := "\U{1F4C4}"]

  const ALLOWED_FILTYPES: seq<string> := [".wav", ".mp3", ".m4a"]

  /**
   * `get_metadata(filepath)` with the file's tags as input: a LIST of three
   * strings, each tag or its fallback. (There is no duration.)
   */
  function GetMetadata(tags: Tags): (r: seq<string>)
    ensures |r| == 3
    ensures r[0] == TagOr(tags.title, "Unknown")
    ensures r[1] == TagOr(tags.artist, "Unknown Artist")
    ensures r[2] == TagOr(tags.album, "Unknown Album")
  {
    [TagOr(tags.title, "Unknown"), TagOr(tags.artist, "Unknown Artist"), TagOr(tags.album, "Unknown Album")]
  }

  /** Non-empty tags come back unchanged, and no field is ever empty. */
  lemma MetadataKeepsTags(tags: Tags)
    ensures tags.title.Some? && tags.title.value != "" ==> GetMetadata(tags)[0] == tags.title.value
    ensures tags.artist.Some? && tags.artist.value != "" ==> GetMetadata(tags)[1] == tags.artist.value
    ensures tags.album.Some? && tags.album.value != "" ==> GetMetadata(tags)[2] == tags.album.value
    ensures forall k :: 0 <= k < 3 ==> GetMetadata(tags)[k] != ""
  {
  }

  /**
   * The item that `populate_list` in components.py and temp.py appends for a
   * child: its name, with the directory icon or the file icon.
   */
  function ListedItem(fs: FileSystem, child: Path): LabelItem {
    LabelItem(Name(child), if fs.kind(child) == Directory then ICON["directory"] else ICON["file"])
  }

  /**
   * What `populate_list` in components.py and temp.py appends for
   * `directory`: the "../" item, then one item per entry of the sorted listing.
   */
  function PopulatedItems(fs: FileSystem, directory: Path): seq<LabelItem> {
    var children := Directories.Contents(fs, directory);
    [LabelItem(UP_LABEL, ICON["directory"])] + seq(|children|, i requires 0 <= i < |children| => ListedItem(fs, children[i]))
  }

  /** The items the chunked loop appends after "../" complete the populated list. */
  lemma PopulatedItemsFrom(fs: FileSystem, directory: Path, appended: seq<LabelItem>)
    requires |appended| == |Directories.Contents(fs, directory)|
    requires forall i :: 0 <= i < |appended| ==> appended[i] == ListedItem(fs, Directories.Contents(fs, directory)[i])
    ensures [LabelItem(UP_LABEL, ICON["directory"])] + appended == PopulatedItems(fs, directory)
  {
  }
}
