/**
 * src/components/playlist.py: the playlist. `songs` is a Python dict, kept
 * here as its keys in insertion order (`keys`) beside the map itself; the
 * list view's items are the playlist's children, one per key.
 */
module Playlist {
  import opened Wrappers
  import opened Paths
  import opened Ports
  import opened LabelItems
  import Constants
  import Helpers

  const AUDIO_ICON: string := Constants.ICON["audio"]

  /** A media's key, `f"{title} {'~ ' + artist}"`: the artist part is always there. */
  function Key(m: Helpers.Metadata): string {
    m.title + " ~ " + m.artist
  }

  /** The key under which `add_media` files a media, from the four-field metadata. */
  function MediaKey(media: Path, tags: Tags): string {
    Key(Helpers.GetMetadata(media, tags))
  }

  /** The key names the title tag (or the file stem) and the artist tag (or "Unknown Artist"). */
  lemma MediaKeyFromTags(media: Path, tags: Tags)
    ensures MediaKey(media, tags) == TagOr(tags.title, Stem(media)) + " ~ " + TagOr(tags.artist, "Unknown Artist")
    ensures tags.artist.None? ==> MediaKey(media, tags) == Helpers.GetMetadata(media, tags).title + " ~ Unknown Artist"
  {
  }

  /** Keys do not tell every two songs apart: different title/artist pairs can give the same key. */
  lemma DistinctSongsCanShareKey()
    ensures exists a: Helpers.Metadata, b: Helpers.Metadata :: a.artist != b.artist && Key(a) == Key(b)
  {
    var a := Helpers.Metadata("A ~ B", "C", "", 0.0);
    var b := Helpers.Metadata("A", "B ~ C", "", 0.0);
    assert Key(a) == Key(b);
  }

  /** What the playlist holds: the keys in insertion order, the `songs` map and the items. */
  datatype Contents = Contents(keys: seq<string>, songs: map<string, Path>, items: seq<LabelItem>)

  predicate Distinct(s: seq<string>) {
    forall i, j :: 0 <= i < j < |s| ==> s[i] != s[j]
  }

  /** The playlist invariant: each key once, the map's keys are exactly those, and the item labels are the keys in order. */
  ghost predicate Consistent(c: Contents) {
    && Distinct(c.keys)
    && (forall k :: k in c.songs <==> k in c.keys)
    && |c.items| == |c.keys|
    && (forall i :: 0 <= i < |c.items| ==> c.items[i] == LabelItem(c.keys[i], AUDIO_ICON))
  }

  /** `add_media` on the contents: nothing when the key is present, else one entry and one item appended. */
  function Added(c: Contents, key: string, media: Path): Contents {
    if key in c.songs then c
    else Contents(c.keys + [key], c.songs[key := media], c.items + [LabelItem(key, AUDIO_ICON)])
  }

  lemma AddedKeepsConsistent(c: Contents, key: string, media: Path)
    requires Consistent(c)
    ensures Consistent(Added(c, key, media))
    ensures key in Added(c, key, media).songs
    ensures Added(c, key, media).songs[key] == if key in c.songs then c.songs[key] else media
    ensures forall k :: k in c.songs ==> k in Added(c, key, media).songs && Added(c, key, media).songs[k] == c.songs[k]
    ensures |Added(c, key, media).items| == |c.items| + if key in c.songs then 0 else 1
  {
    var a := Added(c, key, media);
    if key !in c.songs {
      forall i, j | 0 <= i < j < |a.keys|
        ensures a.keys[i] != a.keys[j]
      {
        if j == |c.keys| {
          assert a.keys[i] == c.keys[i] && c.keys[i] in c.songs;
        }
      }
    }
  }

  /** Adding again under a key already present changes nothing, whatever the media. */
  lemma AddIsIdempotent(c: Contents, key: string, first: Path, second: Path)
    ensures Added(Added(c, key, first), key, second) == Added(c, key, first)
  {
  }

  /** The keys of `s` other than `k`: a dict deletion as seen in the insertion order. */
  function Without(s: seq<string>, k: string): (r: seq<string>)
    ensures forall x :: x in r <==> x in s && x != k
  {
    if s == [] then []
    else if s[0] == k then Without(s[1..], k)
    else [s[0]] + Without(s[1..], k)
  }

  /** `action_remove_media` on the contents: the key of item `i` leaves `songs`, and item `i` goes. */
  function Removed(c: Contents, i: nat): Contents
    requires i < |c.items|
  {
    var k := c.items[i].text;
    Contents(Without(c.keys, k), c.songs - {k}, c.items[..i] + c.items[i + 1..])
  }

  lemma {:induction false} WithoutDistinct(s: seq<string>, i: nat)
    requires Distinct(s) && i < |s|
    ensures Without(s, s[i]) == s[..i] + s[i + 1..]
  {
    if i == 0 {
      WithoutAbsent(s[1..], s[0]);
      assert s[1..] == s[..0] + s[1..];
    } else {
      assert Distinct(s[1..]) by {
        forall a, b | 0 <= a < b < |s[1..]|
          ensures s[1..][a] != s[1..][b]
        {
          assert s[1..][a] == s[a + 1] && s[1..][b] == s[b + 1];
        }
      }
      WithoutDistinct(s[1..], i - 1);
      assert s[1..][i - 1] == s[i];
      assert s[..i] + s[i + 1..] == [s[0]] + (s[1..][..i - 1] + s[1..][i..]);
    }
  }

  lemma {:induction false} WithoutAbsent(s: seq<string>, k: string)
    requires k !in s
    ensures Without(s, k) == s
  {
    if s != [] {
      WithoutAbsent(s[1..], k);
    }
  }

  /**
   * Removal keeps the invariant and deletes exactly the key of the removed
   * item and that item: every other entry keeps its value and its place in
   * the order.
   */
  lemma RemovedKeepsConsistent(c: Contents, i: nat)
    requires Consistent(c) && i < |c.items|
    ensures Consistent(Removed(c, i))
    ensures Removed(c, i).keys == c.keys[..i] + c.keys[i + 1..]
    ensures c.keys[i] !in Removed(c, i).songs
    ensures forall k :: k in c.songs && k != c.keys[i] ==> k in Removed(c, i).songs && Removed(c, i).songs[k] == c.songs[k]
  {
    WithoutDistinct(c.keys, i);
    var r := Removed(c, i);
    DropKeepsDistinct(c.keys, i);
    forall j | 0 <= j < |r.items|
      ensures r.items[j] == LabelItem(r.keys[j], AUDIO_ICON)
    {
      if j < i {
        assert r.items[j] == c.items[j] && r.keys[j] == c.keys[j];
      } else {
        assert r.items[j] == c.items[j + 1] && r.keys[j] == c.keys[j + 1];
      }
    }
  }

  /** Dropping position `i` of distinct keys leaves distinct keys: all the others. */
  lemma DropKeepsDistinct(s: seq<string>, i: nat)
    requires Distinct(s) && i < |s|
    ensures Distinct(s[..i] + s[i + 1..])
    ensures forall x :: x in s[..i] + s[i + 1..] <==> x in s && x != s[i]
  {
    var d := s[..i] + s[i + 1..];
    forall a, b | 0 <= a < b < |d|
      ensures d[a] != d[b]
    {
      var a' := if a < i then a else a + 1;
      var b' := if b < i then b else b + 1;
      assert d[a] == s[a'] && d[b] == s[b'];
    }
    forall x
      ensures x in d <==> x in s && x != s[i]
    {
      if x in d {
        var m :| 0 <= m < |d| && d[m] == x;
        assert x == s[if m < i then m else m + 1];
      }
      if x in s && x != s[i] {
        var m :| 0 <= m < |s| && s[m] == x;
        assert x == d[if m < i then m else m - 1];
      }
    }
  }

  /** Removing the entry just added restores the playlist: remove undoes add. */
  lemma AddThenRemoveRestores(c: Contents, key: string, media: Path)
    requires Consistent(c) && key !in c.songs
    ensures Removed(Added(c, key, media), |c.items|) == c
  {
    var a := Added(c, key, media);
    assert key !in c.keys;
    WithoutAbsent(c.keys, key);
    assert Without(a.keys, key) == Without(c.keys, key) by {
      WithoutAppend(c.keys, key);
    }
    assert a.songs - {key} == c.songs;
    assert a.items[..|c.items|] + a.items[|c.items| + 1..] == c.items;
  }

  lemma {:induction false} WithoutAppend(s: seq<string>, k: string)
    ensures Without(s + [k], k) == Without(s, k)
  {
    if s == [] {
      assert Without([k], k) == Without([], k);
    } else {
      assert (s + [k])[1..] == s[1..] + [k];
      WithoutAppend(s[1..], k);
    }
  }

  /**
   * The highlight after the removal at `removed` leaves `remaining` items:
   * unchanged when none remain, else the same position if it is still in
   * range and the first one otherwise.
   */
  function IndexAfterRemoval(current: Option<nat>, removed: nat, remaining: nat): (r: Option<nat>)
    ensures remaining > 0 ==> r.Some? && r.value < remaining
    ensures remaining > 0 && removed < remaining ==> r == Some(removed)
    ensures remaining > 0 && removed >= remaining ==> r == Some(0)
    ensures remaining == 0 ==> r == current
  {
    if remaining == 0 then current
    else Some(if removed < remaining then removed else 0)
  }

  class Playlist {
    var keys: seq<string>
    var songs: map<string, Path>
    var items: seq<LabelItem>
    /** The list view's highlighted position, `None` when nothing is highlighted. */
    var index: Option<nat>

    function View(): Contents
      reads this
    {
      Contents(keys, songs, items)
    }

    ghost predicate Valid()
      reads this
    {
      Consistent(View())
    }

    constructor ()
      ensures Valid() && View() == Contents([], map[], []) && index == None
    {
      keys, songs, items := [], map[], [];
      index := None;
    }

    /**
     * `handle_selection` for the item at `position`: play that entry from the
     * playlist, unless it is already the song playing from the playlist, in
     * which case toggle play and pause.
     */
    method HandleSelection(position: nat, player: PlayerView) returns (cmd: PlayerCommand)
      requires Valid() && position < |items|
      ensures items[position].text in songs
      ensures cmd == TogglePlayState <==> player.playingSong == Some(songs[items[position].text]) && player.playingFromPlaylist
      ensures cmd != TogglePlayState ==> cmd == PlayFromPlaylist(items[position].text, songs[items[position].text])
    {
      var key := items[position].text;
      assert key == keys[position];
      var selectedMedia := songs[key];
      if player.playingSong.None? || player.playingSong.value != selectedMedia || !player.playingFromPlaylist {
        return PlayFromPlaylist(key, selectedMedia);
      }
      return TogglePlayState;
    }

    /** `populate`: append one item per key, in insertion order. */
    method Populate()
      modifies this`items
      ensures |items| == |old(items)| + |keys|
      ensures items[..|old(items)|] == old(items)
      ensures forall i :: 0 <= i < |keys| ==> items[|old(items)| + i] == LabelItem(keys[i], AUDIO_ICON)
      ensures old(items) == [] && Distinct(keys) && (forall k :: k in songs <==> k in keys) ==> Valid()
    {
      var n := |items|;
      for i := 0 to |keys|
        invariant |items| == n + i
        invariant items[..n] == old(items)
        invariant forall j :: 0 <= j < i ==> items[n + j] == LabelItem(keys[j], AUDIO_ICON)
      {
        items := items + [LabelItem(keys[i], AUDIO_ICON)];
      }
    }

    /** `add_media(media)`, with the tags read from the media as `tags`. */
    method AddMedia(media: Path, tags: Tags)
      requires Valid()
      modifies this`keys, this`songs, this`items
      ensures Valid()
      ensures View() == Added(old(View()), MediaKey(media, tags), media)
    {
      var m := Helpers.GetMetadata(media, tags);
      var key := m.title + " ~ " + m.artist;
      if key in songs {
        return;
      }
      AddedKeepsConsistent(View(), key, media);
      songs := songs[key := media];
      keys := keys + [key];
      items := items + [LabelItem(key, AUDIO_ICON)];
    }

    /** `action_remove_media`: remove the highlighted entry, then move the highlight. */
    method RemoveMedia() returns (outcome: Outcome)
      requires Valid()
      modifies this
      ensures Valid()
      ensures old(index).None? ==> outcome == Raised(TypeError) && View() == old(View()) && index == old(index)
      ensures old(index).Some? && old(index).value >= old(|items|) ==>
        outcome == Raised(IndexError) && View() == old(View()) && index == old(index)
      ensures old(index).Some? && old(index).value < old(|items|) ==>
        && outcome == Completed
        && View() == Removed(old(View()), old(index).value)
        && index == IndexAfterRemoval(old(index), old(index).value, |items|)
    {
      if index.None? {
        return Raised(TypeError);
      }
      var i := index.value;
      if i >= |items| {
        return Raised(IndexError);
      }
      var media := items[i].text;
      RemovedKeepsConsistent(View(), i);
      songs := songs - {media};
      keys := Without(keys, media);
      items := items[..i] + items[i + 1..];
      if |items| == 0 {
        return Completed;
      }
      index := Some(if i < |items| then i else 0);
      return Completed;
    }
  }
}
